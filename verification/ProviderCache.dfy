/**
 The per-terminal provider allowlist.  A lookup reads the cache under a lock, reads the
 store without one, and writes the cache under the lock again, so lookups of several
 threads interleave with each other and with the teardown of terminals.
 */
module ProviderCache {
  import opened Wrappers

  /** A lookup between its phases. */
  datatype Phase = Looked(id: string) | Fetched(id: string, provider: string)

  /**
   `store` holds the raw provider of every terminal row, `torn` the terminals whose teardown
   has dropped the cache entry but not yet settled the row.
   */
  datatype State = State(
    store: map<string, string>, cache: map<string, string>, pending: map<nat, Phase>, torn: set<string>)

  datatype Step =
    | Create(id: string, raw: string)
    | Forget(id: string)
    | Delete(id: string)
    | Retain(id: string)
    | Look(thread: nat, id: string)
    | Fetch(thread: nat, readable: bool)
    | Write(thread: nat)

  const EMPTY := State(map[], map[], map[], {})

  /** `str(...).strip().lower()`. */
  type Normal = string -> string

  /** What a lookup without a cache answers. */
  function Uncached(norm: Normal, store: map<string, string>, id: string, readable: bool): Option<string> {
    if readable && id in store && norm(store[id]) != "" then Some(norm(store[id])) else None
  }

  predicate Enabled(s: State, step: Step) {
    match step
    case Create(id, _) => id !in s.store
    case Forget(id) => id in s.store
    case Delete(id) => id in s.torn && id in s.store
    case Retain(id) => id in s.torn
    case Look(thread, _) => thread !in s.pending
    case Fetch(thread, _) => thread in s.pending && s.pending[thread].Looked?
    case Write(thread) => thread in s.pending && s.pending[thread].Fetched?
  }

  function Next(norm: Normal, s: State, step: Step): State
    requires Enabled(s, step)
  {
    match step
    case Create(id, raw) => s.(store := s.store[id := raw])
    case Forget(id) => s.(cache := s.cache - {id}, torn := s.torn + {id})
    case Delete(id) => s.(store := s.store - {id}, torn := s.torn - {id})
    case Retain(id) => s.(torn := s.torn - {id})
    case Look(thread, id) => if id in s.cache then s else s.(pending := s.pending[thread := Looked(id)])
    case Fetch(thread, readable) =>
      var id := s.pending[thread].id;
      (match Uncached(norm, s.store, id, readable)
       case None => s.(pending := s.pending - {thread})
       case Some(p) => s.(pending := s.pending[thread := Fetched(id, p)]))
    case Write(thread) =>
      var f := s.pending[thread];
      s.(cache := s.cache[f.id := f.provider], pending := s.pending - {thread})
  }

  /** The answer a step gives its caller, when it ends a lookup. */
  function Answer(norm: Normal, s: State, step: Step): Option<Option<string>>
    requires Enabled(s, step)
  {
    match step
    case Look(_, id) => if id in s.cache then Some(Some(s.cache[id])) else None
    case Fetch(thread, readable) =>
      if Uncached(norm, s.store, s.pending[thread].id, readable).None? then Some(None) else None
    case Write(thread) => Some(Some(s.pending[thread].provider))
    case _ => None
  }

  /** The terminal a lookup step is about. */
  function IdOf(s: State, step: Step): string
    requires Enabled(s, step)
  {
    match step
    case Look(_, id) => id
    case Fetch(thread, _) => s.pending[thread].id
    case Write(thread) => s.pending[thread].id
    case _ => step.id
  }

  // ----- agreement with the store -----

  /** Every cached provider, and every one about to be cached, is the live terminal's own. */
  predicate Sound(norm: Normal, s: State) {
    && (forall id <- s.cache :: id !in s.torn && Uncached(norm, s.store, id, true) == Some(s.cache[id]))
    && (forall t <- s.pending :: s.pending[t].id !in s.torn)
    && (forall t <- s.pending :: s.pending[t].Fetched? ==>
          Uncached(norm, s.store, s.pending[t].id, true) == Some(s.pending[t].provider))
    && (forall id <- s.torn :: id in s.store)
  }

  predicate InFlight(s: State, id: string) {
    exists t <- s.pending :: s.pending[t].id == id
  }

  /** No lookup of an id is in flight when it is forgotten, and none starts before its row is settled. */
  predicate Disciplined(s: State, step: Step) {
    && (step.Forget? ==> !InFlight(s, step.id))
    && (step.Look? ==> step.id !in s.torn)
  }

  /** Every disciplined step keeps the cache in agreement with the store. */
  lemma StepKeepsSound(norm: Normal, s: State, step: Step)
    requires Sound(norm, s) && Enabled(s, step) && Disciplined(s, step)
    ensures Sound(norm, Next(norm, s, step))
  {
    match step {
      case Create(id, raw) =>
        assert forall other <- s.cache :: other != id;
        assert forall t <- s.pending :: s.pending[t].Fetched? ==> s.pending[t].id != id;
      case Delete(id) =>
        assert forall other <- s.cache :: other != id;
      case Forget(id) =>
        assert forall t <- s.pending :: s.pending[t].id != id;
      case _ =>
    }
  }

  /** Any interleaving at all of the threads' steps. */
  ghost predicate Possible(norm: Normal, s: State, steps: seq<Step>)
    decreases |steps|
  {
    |steps| > 0 ==> Enabled(s, steps[0]) && Possible(norm, Next(norm, s, steps[0]), steps[1..])
  }

  ghost function After(norm: Normal, s: State, steps: seq<Step>): State
    requires Possible(norm, s, steps)
    decreases |steps|
  {
    if |steps| == 0 then s else After(norm, Next(norm, s, steps[0]), steps[1..])
  }

  ghost predicate AllDisciplined(norm: Normal, s: State, steps: seq<Step>)
    requires Possible(norm, s, steps)
    decreases |steps|
  {
    |steps| > 0 ==> Disciplined(s, steps[0]) && AllDisciplined(norm, Next(norm, s, steps[0]), steps[1..])
  }

  /**
   In every disciplined run of any number of threads, the cache agrees with the store at
   every moment.
   */
  lemma {:induction false} RunsAreSound(norm: Normal, s: State, steps: seq<Step>)
    requires Sound(norm, s) && Possible(norm, s, steps) && AllDisciplined(norm, s, steps)
    ensures Sound(norm, After(norm, s, steps))
    decreases |steps|
  {
    if |steps| > 0 {
      StepKeepsSound(norm, s, steps[0]);
      RunsAreSound(norm, Next(norm, s, steps[0]), steps[1..]);
    }
  }

  /** The verdict of the allowlist on an answer. */
  predicate Admits(providers: set<string>, answer: Option<string>) {
    providers != {} && answer.Some? && answer.value in providers
  }

  /**
   Every answer is the uncached one, as if the store had just been read; an unreadable store
   can only turn a yes into a no.
   */
  lemma AnswersAreUncached(norm: Normal, s: State, step: Step, providers: set<string>)
    requires Sound(norm, s) && Enabled(s, step) && Answer(norm, s, step).Some?
    ensures var answer, current := Answer(norm, s, step).value, Uncached(norm, s.store, IdOf(s, step), true);
         && (!(step.Fetch? && !step.readable) ==> answer == current)
         && (Admits(providers, answer) ==> Admits(providers, current))
  {
  }

  // ----- exactly when a reused id inherits -----

  /** A cached provider of the terminal is its row's; without a row there is nothing to answer for. */
  predicate AgreesAt(norm: Normal, s: State, id: string) {
    id in s.cache && id in s.store ==> Uncached(norm, s.store, id, true) == Some(s.cache[id])
  }

  /** Some thread has read a provider of the terminal and not written it yet. */
  predicate HoldsProvider(s: State, id: string) {
    exists t <- s.pending :: s.pending[t].Fetched? && s.pending[t].id == id
  }

  /** The terminal `thread` asked about last. */
  function LastLook(steps: seq<Step>, thread: nat): Option<string> {
    if |steps| == 0 then None
    else
      var last := steps[|steps| - 1];
      if last.Look? && last.thread == thread then Some(last.id) else LastLook(steps[..|steps| - 1], thread)
  }

  /** In the history, a lookup of `id` wrote the cache after the last time `id` was forgotten. */
  ghost predicate WrittenSinceForget(steps: seq<Step>, id: string) {
    exists i :: 0 <= i < |steps| && WritesAt(steps, i, id) && forall j :: i < j < |steps| ==> steps[j] != Forget(id)
  }

  predicate WritesAt(steps: seq<Step>, i: nat, id: string)
    requires i < |steps|
  {
    steps[i].Write? && LastLook(steps[..i], steps[i].thread) == Some(id)
  }

  lemma {:induction false} LastStep(norm: Normal, s: State, steps: seq<Step>, n: nat)
    requires Possible(norm, s, steps) && |steps| == n + 1
    ensures Possible(norm, s, steps[..n]) && Enabled(After(norm, s, steps[..n]), steps[n])
    ensures After(norm, s, steps) == Next(norm, After(norm, s, steps[..n]), steps[n])
    decreases n
  {
    if n > 0 {
      LastStep(norm, Next(norm, s, steps[0]), steps[1..], n - 1);
      assert steps[..n][1..] == steps[1..][..n - 1];
    }
  }

  /** A lookup in flight is about the terminal its thread asked about last. */
  lemma {:induction false} PendingIsLastLook(norm: Normal, steps: seq<Step>)
    requires Possible(norm, EMPTY, steps)
    ensures var s := After(norm, EMPTY, steps);
         forall t <- s.pending :: LastLook(steps, t) == Some(s.pending[t].id)
    decreases |steps|
  {
    if |steps| > 0 {
      var n := |steps| - 1;
      LastStep(norm, EMPTY, steps, n);
      PendingIsLastLook(norm, steps[..n]);
    }
  }

  lemma WrittenByLast(steps: seq<Step>, n: nat, id: string)
    requires |steps| == n + 1
    ensures WrittenSinceForget(steps, id) <==>
      WritesAt(steps, n, id) || (steps[n] != Forget(id) && WrittenSinceForget(steps[..n], id))
  {
    forall i | 0 <= i < n
      ensures WritesAt(steps[..n], i, id) == WritesAt(steps, i, id)
    {
      assert steps[..n][..i] == steps[..i];
    }
    if WritesAt(steps, n, id) {
      assert WrittenSinceForget(steps, id);
    } else if steps[n] != Forget(id) && WrittenSinceForget(steps[..n], id) {
      var i :| 0 <= i < n && WritesAt(steps[..n], i, id) && forall j :: i < j < n ==> steps[..n][j] != Forget(id);
      assert WritesAt(steps, i, id) && forall j :: i < j < n ==> steps[j] == steps[..n][j];
    }
  }

  /** The cache holds exactly the terminals written since they were forgotten. */
  lemma {:induction false} CachedExactly(norm: Normal, steps: seq<Step>, id: string)
    requires Possible(norm, EMPTY, steps)
    ensures id in After(norm, EMPTY, steps).cache <==> WrittenSinceForget(steps, id)
    decreases |steps|
  {
    if |steps| > 0 {
      var n := |steps| - 1;
      LastStep(norm, EMPTY, steps, n);
      CachedExactly(norm, steps[..n], id);
      PendingIsLastLook(norm, steps[..n]);
      WrittenByLast(steps, n, id);
    }
  }

  /** Nothing stale about the terminal is cached or about to be. */
  predicate SoundAt(norm: Normal, s: State, id: string) {
    && (id in s.cache ==> Uncached(norm, s.store, id, true) == Some(s.cache[id]))
    && (forall t <- s.pending :: s.pending[t].Fetched? && s.pending[t].id == id ==>
          Uncached(norm, s.store, id, true) == Some(s.pending[t].provider))
  }

  /** From such a state the terminal is answered rightly until its row is deleted. */
  lemma {:induction false} SoundForLife(norm: Normal, s: State, later: seq<Step>, id: string)
    requires SoundAt(norm, s, id) && Possible(norm, s, later) && Delete(id) !in later
    ensures AgreesAt(norm, After(norm, s, later), id)
    decreases |later|
  {
    if |later| > 0 {
      assert later[0] in later;
      assert SoundAt(norm, Next(norm, s, later[0]), id);
      SoundForLife(norm, Next(norm, s, later[0]), later[1..], id);
    }
  }

  /** Every run in which the next terminal with this id lives agrees with that terminal. */
  ghost predicate NeverInherited(norm: Normal, s: State, id: string) {
    forall later: seq<Step> :: Possible(norm, s, later) && Delete(id) !in later ==>
      AgreesAt(norm, After(norm, s, later), id)
  }

  /** The terminal with the id and the raw provider `raw` is answered with another provider. */
  ghost predicate Inherits(norm: Normal, s: State, id: string, raw: string) {
    exists later: seq<Step> :: Possible(norm, s, later) && Delete(id) !in later && Create(id, raw) in later
      && !AgreesAt(norm, After(norm, s, later), id)
  }

  /** The provider a missing terminal leaves is `left`, cached or in some thread's hands. */
  predicate Leaves(s: State, id: string, left: string) {
    || (id in s.cache && s.cache[id] == left)
    || (exists t <- s.pending :: s.pending[t] == Fetched(id, left))
  }

  lemma JustCreated(norm: Normal, s: State, id: string, raw: string)
    requires id !in s.store
    ensures Possible(norm, s, [Create(id, raw)])
    ensures After(norm, s, [Create(id, raw)]) == Next(norm, s, Create(id, raw))
  {
    var later := [Create(id, raw)];
    assert later[0] == Create(id, raw) && later[1..] == [];
  }

  /**
   What a missing terminal leaves is inherited by every successor with a different provider,
   not only by one whose provider is blank.
   */
  lemma LeftIsInherited(norm: Normal, s: State, id: string, left: string, raw: string)
    requires id !in s.store && Leaves(s, id, left) && (norm(raw) == "" || norm(raw) != left)
    ensures Inherits(norm, s, id, raw)
  {
    if id in s.cache && s.cache[id] == left {
      JustCreated(norm, s, id, raw);
      assert Create(id, raw) in [Create(id, raw)] && Delete(id) !in [Create(id, raw)];
    } else {
      var thread :| thread in s.pending && s.pending[thread] == Fetched(id, left);
      var written := Next(norm, s, Write(thread));
      var later := [Write(thread), Create(id, raw)];
      assert later[0] == Write(thread) && later[1..] == [Create(id, raw)];
      JustCreated(norm, written, id, raw);
      assert Possible(norm, s, later) && After(norm, s, later) == Next(norm, written, Create(id, raw));
      assert Create(id, raw) in later && Delete(id) !in later;
    }
  }

  /**
   After any history at all, however undisciplined: whatever happens next, the next terminal
   with the id of a missing one is answered from its own row for its whole life, if and only
   if no lookup of that id wrote the cache after the id was last forgotten and no thread
   still holds a provider it read for that id.  Otherwise some provider is left, and every
   successor with a different one can inherit it.
   */
  lemma InheritedExactly(norm: Normal, history: seq<Step>, id: string)
    requires norm("") == "" && Possible(norm, EMPTY, history) && id !in After(norm, EMPTY, history).store
    ensures NeverInherited(norm, After(norm, EMPTY, history), id)
       <==> !WrittenSinceForget(history, id) && !HoldsProvider(After(norm, EMPTY, history), id)
    ensures forall left, raw ::
      Leaves(After(norm, EMPTY, history), id, left) && norm(raw) != left ==>
        Inherits(norm, After(norm, EMPTY, history), id, raw)
  {
    var s := After(norm, EMPTY, history);
    CachedExactly(norm, history, id);
    forall left, raw | Leaves(s, id, left) && norm(raw) != left
      ensures Inherits(norm, s, id, raw)
    {
      LeftIsInherited(norm, s, id, left, raw);
    }
    if id in s.cache {
      LeftIsInherited(norm, s, id, s.cache[id], "");
    } else if HoldsProvider(s, id) {
      var thread :| thread in s.pending && s.pending[thread].Fetched? && s.pending[thread].id == id;
      LeftIsInherited(norm, s, id, s.pending[thread].provider, "");
    } else {
      forall later: seq<Step> | Possible(norm, s, later) && Delete(id) !in later
        ensures AgreesAt(norm, After(norm, s, later), id)
      {
        SoundForLife(norm, s, later, id);
      }
    }
  }

  /** The three steps of one lookup by `thread`, starting without a cache entry. */
  function LookupOf(norm: Normal, s: State, thread: nat, id: string): State
    requires thread !in s.pending && id !in s.cache && Uncached(norm, s.store, id, true).Some?
  {
    Next(norm, Next(norm, Next(norm, s, Look(thread, id)), Fetch(thread, true)), Write(thread))
  }

  /**
   A lookup that straddles the `forget` of its terminal writes the dead terminal's provider
   after it was dropped, and a terminal that later gets the same id inherits it.
   */
  lemma StraddlingLookupIsInherited(norm: Normal, id: string, raw: string, other: string)
    requires norm(raw) != "" && norm(other) != norm(raw)
    ensures var live := Next(norm, EMPTY, Create(id, raw));
         var fetched := Next(norm, Next(norm, live, Look(0, id)), Fetch(0, true));
         var dead := Next(norm, Next(norm, fetched, Forget(id)), Delete(id));
         var written := Next(norm, dead, Write(0));
         AgreesAt(norm, written, id) && !AgreesAt(norm, Next(norm, written, Create(id, other)), id)
  {
    var live := Next(norm, EMPTY, Create(id, raw));
    var fetched := Next(norm, Next(norm, live, Look(0, id)), Fetch(0, true));
    assert fetched.pending[0] == Fetched(id, norm(raw));
  }

  /**
   So does a lookup that runs wholly between the `forget` and the deletion of the row, although
   no lookup straddles the `forget`.
   */
  lemma LookupDuringTeardownIsInherited(norm: Normal, id: string, raw: string, other: string)
    requires norm(raw) != "" && norm(other) != norm(raw)
    ensures var torn := Next(norm, Next(norm, EMPTY, Create(id, raw)), Forget(id));
         var dead := Next(norm, LookupOf(norm, torn, 0, id), Delete(id));
         && !InFlight(torn, id) && AgreesAt(norm, dead, id)
         && !AgreesAt(norm, Next(norm, dead, Create(id, other)), id)
  {
    var torn := Next(norm, Next(norm, EMPTY, Create(id, raw)), Forget(id));
    assert LookupOf(norm, torn, 0, id).cache[id] == norm(raw);
  }

  // ----- the object -----

  /** What the metadata read gives: an exception, no row, or a row's provider field. */
  datatype Metadata = LookupRaised | NoRow | RowOf(raw: string)

  function MetadataOf(store: map<string, string>, id: string, readable: bool): Metadata {
    if !readable then LookupRaised else if id in store then RowOf(store[id]) else NoRow
  }

  class ProviderAllowlist {
    const providers: set<string>
    const norm: Normal
    var cache: map<string, string>

    constructor (providers: set<string>, norm: Normal)
      ensures this.providers == providers && this.norm == norm && cache == map[]
    {
      this.providers, this.norm := providers, norm;
      cache := map[];
    }

    method Forget(id: string)
      modifies this
      ensures cache == old(cache) - {id}
    {
      cache := cache - {id};
    }

    method CachedProvider(id: string) returns (provider: Option<string>)
      ensures provider == if id in cache then Some(cache[id]) else None
    {
      provider := if id in cache then Some(cache[id]) else None;
    }

    method Remember(id: string, provider: string)
      modifies this
      ensures cache == old(cache)[id := provider]
    {
      cache := cache[id := provider];
    }

    /** `_provider_of` with nothing acting between its phases. */
    method ProviderOf(id: string, metadata: Metadata) returns (provider: Option<string>)
      modifies this
      ensures id in old(cache) ==> provider == Some(old(cache)[id]) && cache == old(cache)
      ensures id !in old(cache) && provider.None? ==> cache == old(cache)
      ensures id !in old(cache) && provider.Some? ==> cache == old(cache)[id := provider.value]
      ensures id !in old(cache) ==> forall store, readable :: metadata == MetadataOf(store, id, readable) ==>
        provider == Uncached(norm, store, id, readable)
    {
      provider := CachedProvider(id);
      if provider.Some? {
        return;
      }
      if !metadata.RowOf? {
        return None;
      }
      var name := norm(metadata.raw);
      if name == "" {
        return None;
      }
      Remember(id, name);
      provider := Some(name);
    }

    /** The gate: with an agreeing cache the answer does not depend on the cache at all. */
    method Admit(id: string, metadata: Metadata, ghost store: map<string, string>, ghost readable: bool)
      returns (admitted: bool)
      requires metadata == MetadataOf(store, id, readable)
      modifies this
      ensures (if id in old(cache) then Uncached(norm, store, id, true) == Some(old(cache)[id]) else readable) ==>
        admitted == Admits(providers, Uncached(norm, store, id, true))
      ensures id !in old(cache) && !readable ==> !admitted
    {
      if providers == {} {
        return false;
      }
      var provider := ProviderOf(id, metadata);
      admitted := provider.Some? && provider.value in providers;
    }
  }
}
