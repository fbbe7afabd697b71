/**
 The guided form as the event loop holds it, and the feed through which the two picker
 fetches report.  The fetch threads only append to the channel; every field and picker is
 written by the event loop.
 */
module GuidedFlowLoop {
  import opened Wrappers
  import opened EnvPairs
  import opened GuidedForm

  /** The channel of one `populate_pickers` call and the two fetch threads behind it. */
  class PickerFeed {
    const agentsAnswer: Result<seq<Profile>, TuiError>
    const providersAnswer: Result<seq<Provider>, TuiError>
    const expected: nat := 2
    var updates: seq<PickerUpdate>
    var agentsPending: bool
    var providersPending: bool
    ghost var delivered: seq<PickerUpdate>

    /** What was sent so far: each fetch's answer at most once, in either order. */
    ghost predicate Valid()
      reads this
    {
      var sent := delivered + updates;
      && (forall u <- sent :: u == Agents(agentsAnswer) || u == Providers(providersAnswer))
      && (forall i, j :: 0 <= i < j < |sent| ==> sent[i] != sent[j])
      && agentsPending == (Agents(agentsAnswer) !in sent)
      && providersPending == (Providers(providersAnswer) !in sent)
    }

    constructor (agentsAnswer: Result<seq<Profile>, TuiError>, providersAnswer: Result<seq<Provider>, TuiError>)
      ensures Valid() && delivered == [] && updates == []
      ensures this.agentsAnswer == agentsAnswer && this.providersAnswer == providersAnswer
    {
      this.agentsAnswer, this.providersAnswer := agentsAnswer, providersAnswer;
      updates, delivered := [], [];
      agentsPending, providersPending := true, true;
    }

    method SendAgents()
      requires Valid() && agentsPending
      modifies `updates, `agentsPending
      ensures Valid() && updates == old(updates) + [Agents(agentsAnswer)]
    {
      updates := updates + [Agents(agentsAnswer)];
      agentsPending := false;
      assert delivered + updates == old(delivered + updates) + [Agents(agentsAnswer)];
    }

    method SendProviders()
      requires Valid() && providersPending
      modifies `updates, `providersPending
      ensures Valid() && updates == old(updates) + [Providers(providersAnswer)]
    {
      updates := updates + [Providers(providersAnswer)];
      providersPending := false;
      assert delivered + updates == old(delivered + updates) + [Providers(providersAnswer)];
    }

    /** The threads run: none, one or both of them finish, in either order. */
    method Threads()
      requires Valid()
      modifies `updates, `agentsPending, `providersPending
      ensures Valid() && old(updates) <= updates
    {
      var agents, providers, agentsFirst := *, *, *;
      if agents && agentsFirst && agentsPending {
        SendAgents();
      }
      if providers && providersPending {
        SendProviders();
      }
      if agents && agentsPending {
        SendAgents();
      }
    }

    /** `try_recv`. */
    method TryRecv() returns (update: Option<PickerUpdate>)
      requires Valid()
      modifies this
      ensures Valid()
      ensures delivered == if update.Some? then old(delivered) + [update.value] else old(delivered)
      ensures update.None? ==> updates == []
    {
      Threads();
      update := Pop();
    }

    /** `recv_timeout`: gives up when nothing arrives in time, or nothing can arrive any more. */
    method RecvTimeout() returns (update: Option<PickerUpdate>)
      requires Valid()
      modifies this
      ensures Valid()
      ensures delivered == if update.Some? then old(delivered) + [update.value] else old(delivered)
    {
      Threads();
      update := Pop();
      if update.None? {
        Threads();
        update := Pop();
      }
    }

    method Pop() returns (update: Option<PickerUpdate>)
      requires Valid()
      modifies `updates, `delivered
      ensures Valid()
      ensures delivered == if update.Some? then old(delivered) + [update.value] else old(delivered)
      ensures update.None? ==> updates == [] && old(updates) == []
    {
      if |updates| == 0 {
        return None;
      }
      update := Some(updates[0]);
      delivered, updates := delivered + [updates[0]], updates[1..];
      assert delivered + updates == old(delivered + updates);
    }

    /** At most one answer of each kind is delivered, so at most two in all. */
    lemma AtMostTwo()
      requires Valid()
      ensures |delivered| <= 2
      ensures forall i, j :: 0 <= i < j < |delivered| ==> delivered[i].Agents? != delivered[j].Agents?
      ensures |delivered| == 2 ==> Agents(agentsAnswer) in delivered && Providers(providersAnswer) in delivered
    {
      var sent := delivered + updates;
      assert forall i :: 0 <= i < |delivered| ==> delivered[i] == sent[i] && sent[i] in sent;
      TwoOfTwo(delivered, Agents(agentsAnswer), Providers(providersAnswer));
    }
  }

  /** Distinct entries drawn from two values are at most two, and both of them when two. */
  lemma TwoOfTwo<T>(s: seq<T>, a: T, b: T)
    requires forall i :: 0 <= i < |s| ==> s[i] == a || s[i] == b
    requires forall i, j :: 0 <= i < j < |s| ==> s[i] != s[j]
    ensures |s| <= 2 && (|s| == 2 ==> a in s && b in s)
  {
    var padded := s + [a, a, a];
    assert forall k :: 0 <= k < |s| ==> padded[k] == s[k];
    var first, second, third := padded[0], padded[1], padded[2];
  }

  class GuidedFlow {
    const catalog: Catalog
    var current: Option<CommandId>
    var fields: seq<Field>
    var agentChoices: PickerState<Profile>
    var providerChoices: PickerState<Provider>

    function View(): Form
      reads this
    {
      Form(current, fields, agentChoices, providerChoices)
    }

    ghost predicate Valid()
      reads this
    {
      GoodForm(catalog, View())
    }

    constructor (catalog: Catalog)
      ensures Valid() && View() == EMPTY_FORM && this.catalog == catalog
    {
      this.catalog := catalog;
      current, fields, agentChoices, providerChoices := None, [], Loading, Loading;
    }

    /** `select`: a hidden command is refused; any other resets the form and keeps the pickers. */
    method SelectCommand(id: CommandId) returns (result: Result<(), FormError>)
      requires Valid()
      modifies this
      ensures Valid()
      ensures result.Success? == SelectForm(catalog, old(View()), id).Success?
      ensures View() == if result.Success? then SelectForm(catalog, old(View()), id).value else old(View())
    {
      ActKeepsGoodForm(catalog, View(), Select(id));
      if catalog(id).policy.Hidden? {
        return Failure(HiddenCommand);
      }
      current := Some(id);
      fields := BuildFields(catalog(id).params);
      return Success(());
    }

    /** `set`: stores the parsed entry in its field, or refuses and changes nothing. */
    method SetField(name: string, text: string) returns (result: Result<(), FormError>)
      requires Valid()
      modifies `fields
      ensures Valid()
      ensures match SetForm(old(View()), name, text)
              case Failure(e) => result == Failure(e) && View() == old(View())
              case Success(form) => result == Success(()) && View() == form
    {
      ActKeepsGoodForm(catalog, View(), Set(name, text));
      var i := FieldIndex(fields, name);
      if i == |fields| {
        return Failure(UnknownField(name));
      }
      var trimmed := Trim(text);
      if trimmed == "" {
        fields := Store(fields, i, None);
        return Success(());
      }
      if !fields[i].kind.FlagField? && name == "--env" {
        var pairs := ParseEnvPairs(trimmed);
        if pairs.Failure? {
          return Failure(BadEnv(pairs.error));
        }
        // A non-blank text never parses to no pairs at all.
        EmptyExactlyWhenBlank(trimmed);
        TrimIdempotent(text);
        fields := Store(fields, i, if pairs.value == map[] then None else Some(Env(pairs.value)));
        return Success(());
      }
      var value := ValueOf(agentChoices, fields[i].kind, name, trimmed);
      if value.Failure? {
        return Failure(value.error);
      }
      fields := Store(fields, i, Some(value.value));
      return Success(());
    }

    method ApplyPickerUpdate(update: PickerUpdate)
      requires Valid()
      modifies `agentChoices, `providerChoices
      ensures Valid() && View() == ApplyForm(old(View()), update)
    {
      match update
      case Agents(answer) => agentChoices := PickerOf(answer);
      case Providers(answer) => providerChoices := PickerOf(answer);
    }

    /** Each picker shows its own answer when that is among the applied ones, and nothing else. */
    ghost predicate Shows(feed: PickerFeed, applied: seq<PickerUpdate>)
      reads this
    {
      && agentChoices == (if Agents(feed.agentsAnswer) in applied then PickerOf(feed.agentsAnswer) else Loading)
      && providerChoices
         == (if Providers(feed.providersAnswer) in applied then PickerOf(feed.providersAnswer) else Loading)
    }

    /** The pickers show what was delivered. */
    ghost predicate Synced(feed: PickerFeed)
      reads this, feed
    {
      Shows(feed, feed.delivered)
    }

    /** `populate_pickers`: both pickers start over and two fetches begin. */
    method PopulatePickers() returns (feed: PickerFeed)
      requires Valid()
      modifies `agentChoices, `providerChoices
      ensures Valid() && current == old(current) && fields == old(fields)
      ensures fresh(feed) && feed.Valid() && feed.delivered == [] && Synced(feed)
    {
      agentChoices, providerChoices := Loading, Loading;
      var agents, providers := *, *;
      feed := new PickerFeed(agents, providers);
    }

    method ApplyDelivered(feed: PickerFeed, update: PickerUpdate, ghost before: seq<PickerUpdate>)
      requires Valid() && feed.Valid() && feed.delivered == before + [update] && Shows(feed, before)
      modifies `agentChoices, `providerChoices
      ensures Valid() && Synced(feed)
    {
      assert update in feed.delivered + feed.updates;
      ApplyPickerUpdate(update);
    }

    /** Applies the answer that was taken last, and takes the next. */
    method ApplyAndTake(feed: PickerFeed, update: PickerUpdate, ghost before: seq<PickerUpdate>)
      returns (next: Option<PickerUpdate>)
      requires Valid() && feed.Valid() && feed.delivered == before + [update] && Shows(feed, before)
      modifies `agentChoices, `providerChoices, feed
      ensures Valid() && feed.Valid() && Shows(feed, before + [update])
      ensures feed.delivered == old(feed.delivered) + if next.Some? then [next.value] else []
      ensures next.None? ==> feed.updates == []
    {
      ApplyDelivered(feed, update, before);
      next := feed.TryRecv();
    }

    /** `drain_picker_updates`: applies what has arrived; the fields are not touched. */
    method DrainPickerUpdates(feed: PickerFeed) returns (applied: nat)
      requires Valid() && feed.Valid() && Synced(feed)
      modifies `agentChoices, `providerChoices, feed
      ensures Valid() && feed.Valid() && Synced(feed)
      ensures feed.updates == [] && |feed.delivered| == old(|feed.delivered|) + applied
    {
      applied := 0;
      ghost var before := feed.delivered;
      var update := feed.TryRecv();
      while update.Some?
        invariant Valid() && feed.Valid()
        invariant feed.delivered == if update.Some? then before + [update.value] else before
        invariant Shows(feed, before)
        invariant |before| == old(|feed.delivered|) + applied
        invariant update.None? ==> feed.updates == []
        decreases 2 - |before|
      {
        feed.AtMostTwo();
        ghost var taken := feed.delivered;
        update := ApplyAndTake(feed, update.value, before);
        applied, before := applied + 1, taken;
      }
    }

    /** `await_pickers`: at most the expected number of waits, stopping at the first that times out. */
    method AwaitPickers(feed: PickerFeed) returns (applied: nat)
      requires Valid() && feed.Valid() && Synced(feed)
      modifies `agentChoices, `providerChoices, feed
      ensures Valid() && feed.Valid() && Synced(feed)
      ensures |feed.delivered| == old(|feed.delivered|) + applied
    {
      applied := 0;
      for i := 0 to feed.expected
        invariant Valid() && feed.Valid() && Synced(feed)
        invariant |feed.delivered| == old(|feed.delivered|) + applied
      {
        ghost var before := feed.delivered;
        var update := feed.RecvTimeout();
        if update.None? {
          break;
        }
        ApplyDelivered(feed, update.value, before);
        applied := applied + 1;
      }
    }
  }

  datatype Turn = Choose(id: CommandId) | Enter(name: string, text: string) | Drain | Wait

  /**
   Every interleaving of the fetch threads with the operator's entries, drains and waits on
   one fresh feed: the form stays good, at most one answer of each kind is applied, and once
   two are, the pickers hold exactly the two answers.
   */
  method Session(flow: GuidedFlow, turns: seq<Turn>) returns (feed: PickerFeed, applied: nat)
    requires flow.Valid()
    modifies flow
    ensures fresh(feed) && flow.Valid() && feed.Valid()
    ensures applied == |feed.delivered| <= 2
    ensures forall i, j :: 0 <= i < j < |feed.delivered| ==> feed.delivered[i].Agents? != feed.delivered[j].Agents?
    ensures applied == 2 ==>
      && flow.agentChoices == PickerOf(feed.agentsAnswer)
      && flow.providerChoices == PickerOf(feed.providersAnswer)
    ensures applied == 0 ==> flow.agentChoices == Loading && flow.providerChoices == Loading
    ensures (forall turn <- turns :: turn.Drain? || turn.Wait?) ==>
      flow.fields == old(flow.fields) && flow.current == old(flow.current)
  {
    feed := flow.PopulatePickers();
    applied := 0;
    for i := 0 to |turns|
      invariant flow.Valid() && feed.Valid() && flow.Synced(feed)
      invariant applied == |feed.delivered|
      invariant (forall turn <- turns :: turn.Drain? || turn.Wait?) ==>
        flow.fields == old(flow.fields) && flow.current == old(flow.current)
    {
      match turns[i] {
        case Choose(id) =>
          var _ := flow.SelectCommand(id);
          assert turns[i] in turns;
        case Enter(name, text) =>
          var _ := flow.SetField(name, text);
          assert turns[i] in turns;
        case Drain =>
          var more := flow.DrainPickerUpdates(feed);
          applied := applied + more;
        case Wait =>
          var more := flow.AwaitPickers(feed);
          applied := applied + more;
      }
    }
    feed.AtMostTwo();
  }

  lemma LaterListKeepsGood(catalog: Catalog, form: Form, text: string, g: Form, update: PickerUpdate)
    requires GoodCatalog(catalog) && GoodForm(catalog, form) && SetForm(form, "--agents", text) == Success(g)
    ensures GoodForm(catalog, ApplyForm(g, update))
  {
    ActKeepsGoodForm(catalog, form, Set("--agents", text));
    ActKeepsGoodForm(catalog, g, Update(update));
  }

  /**
   The refusal of unloadable profiles holds at the moment of entry only: whatever name the
   launch form accepted, a list that arrives later may mark it unloadable, and the stored
   name stays although entering it again is refused.
   */
  lemma LaterListMayContradict(catalog: Catalog, form: Form, text: string, g: Form)
    requires GoodCatalog(catalog) && GoodForm(catalog, form) && form.current == Some(Launch)
    requires Trim(text) != "" && SetForm(form, "--agents", text) == Success(g)
    ensures var h := ApplyForm(g, Agents(Success([Profile(Trim(text), false, "")])));
         && GoodForm(catalog, h) && TextOf(h.fields, "--agents") == Some(Trim(text))
         && Unloadable(h.agents, Trim(text))
         && SetForm(h, "--agents", text) == Failure(UnloadableProfile(Trim(text)))
  {
    var update := Agents(Success([Profile(Trim(text), false, "")]));
    LaterListKeepsGood(catalog, form, text, g, update);
    var i := StoredAgents(catalog, form, text, g);
    RefusedAgain(ApplyForm(g, update), "--agents", text, i);
  }

  /** Where an accepted profile name is stored. */
  lemma StoredAgents(catalog: Catalog, form: Form, text: string, g: Form) returns (i: nat)
    requires GoodCatalog(catalog) && GoodForm(catalog, form) && form.current == Some(Launch)
    requires Trim(text) != "" && SetForm(form, "--agents", text) == Success(g)
    ensures FieldIndex(g.fields, "--agents") == i < |g.fields| && !g.fields[i].kind.FlagField?
    ensures TextOf(g.fields, "--agents") == Some(Trim(text))
  {
    i := AgentsField(catalog, form);
    LookupsAfterEntry(form, "--agents", text, g);
    IndexAfterStore(form.fields, i, g.fields[i].value, "--agents");
  }

  lemma RefusedAgain(form: Form, name: string, text: string, i: nat)
    requires name == "--agents" && FieldIndex(form.fields, name) == i < |form.fields|
    requires !form.fields[i].kind.FlagField? && Trim(text) != ""
    requires form.agents == Loaded([Profile(Trim(text), false, "")])
    ensures Unloadable(form.agents, Trim(text))
    ensures SetForm(form, name, text) == Failure(UnloadableProfile(Trim(text)))
  {
    assert form.agents.choices[0] in form.agents.choices;
  }
}
