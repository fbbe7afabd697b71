/**
 One CAO session driven from outside: discover, launch, wait, follow up, read, shut down,
 and verify that the session is gone.  Every call is recorded with its answer, and the
 record of a run together with the status trace decides how the run ends.
 */
module OpsLifecycle {
  import opened Wrappers
  import opened TurnWait

  /** A tool call and what the server answered; no value stands for a failed or raising call. */
  datatype Call =
    | ListProfiles(installed: Option<seq<string>>)
    | Launch(answer: LaunchAnswer)
    | StatusLookup(i: nat)
    | OutputSize(ok: bool)
    | SendMessage(text: string, sent: bool)
    | ReadOutput(output: Option<string>)
    | Shutdown(name: string, reply: ShutdownAnswer)
    | SessionInfo(name: string, info: InfoAnswer)

  datatype LaunchAnswer = LaunchRaised | LaunchFailed | NoObject | Launched(name: string, terminal: string)

  datatype ShutdownAnswer = ShutdownRaised | ShutdownFailed | ShutdownDone

  /** The server's answer to a lookup of a session. */
  datatype InfoAnswer = InfoRaised | CanonicalNotFound | OtherFailure | NotAnObject | Present

  datatype Step =
    | ListedProfiles | LaunchedSession | WaitedForTurn(status: string) | SentMessage
    | ReadTheOutput | ShutDown(reported: bool, verifiedGone: bool)

  datatype Report = Report(steps: seq<Step>, name: string, terminal: string, output: string, verified: bool)

  datatype Failure =
    | NoProfile | NotLaunched | NoIdentity | TurnFailed(outcome: WaitOutcome) | CallFailed
    | CleanupUnknown | CleanupNotVerified

  datatype Ended = Returned(report: Report) | Raised(failure: Failure)

  /** The status lookups of the polls from `start` up to `end`. */
  ghost function Lookups(start: nat, end: nat): seq<Call> {
    if end <= start then [] else seq(end - start, i requires 0 <= i => StatusLookup(start + i))
  }

  /** One wait: the poll that decided it, its deadline, and what was decided. */
  datatype Wait = Wait(k: nat, deadline: nat, outcome: WaitOutcome)

  /** The calls of a wait; one that times out does not look any more. */
  ghost function WaitCalls(start: nat, w: Wait): seq<Call> {
    Lookups(start, if w.outcome.TimedOut? then w.k else w.k + 1)
  }

  /** The MCP session: every answer is the server's choice, and every call is recorded. */
  class OpsSession {
    const trace: Trace
    var polls: nat
    ghost var log: seq<Call>

    constructor (trace: Trace)
      ensures this.trace == trace && polls == 0 && log == []
    {
      this.trace := trace;
      polls, log := 0, [];
    }

    method ListInstalled() returns (installed: Option<seq<string>>)
      modifies this`log
      ensures log == old(log) + [ListProfiles(installed)]
    {
      installed := *;
      log := log + [ListProfiles(installed)];
    }

    method LaunchSession() returns (answer: LaunchAnswer)
      modifies this`log
      ensures log == old(log) + [Launch(answer)]
    {
      answer := *;
      log := log + [Launch(answer)];
    }

    method MeasureOutput() returns (ok: bool)
      modifies this`log
      ensures log == old(log) + [OutputSize(ok)]
    {
      ok := *;
      log := log + [OutputSize(ok)];
    }

    method Send(text: string) returns (sent: bool)
      modifies this`log
      ensures log == old(log) + [SendMessage(text, sent)]
    {
      sent := *;
      log := log + [SendMessage(text, sent)];
    }

    method Read() returns (output: Option<string>)
      modifies this`log
      ensures log == old(log) + [ReadOutput(output)]
    {
      output := *;
      log := log + [ReadOutput(output)];
    }

    method ShutdownSession(name: string) returns (reply: ShutdownAnswer)
      modifies this`log
      ensures log == old(log) + [Shutdown(name, reply)]
    {
      reply := *;
      log := log + [Shutdown(name, reply)];
    }

    method GetSessionInfo(name: string) returns (info: InfoAnswer)
      modifies this`log
      ensures log == old(log) + [SessionInfo(name, info)]
    {
      info := *;
      log := log + [SessionInfo(name, info)];
    }

    /** The clock is read before the next poll looks at it. */
    method Clock() returns (now: nat)
      ensures now <= trace(polls).at
    {
      now := *;
      if now > trace(polls).at {
        now := trace(polls).at;
      }
    }

    /** A wait with the deadline `timeout` after the current clock. */
    method Await(base: Baseline, timeout: nat) returns (outcome: WaitOutcome, ghost w: Wait)
      requires Ticking(trace)
      modifies this`log, this`polls
      ensures Waited(trace, old(polls), timeout, base, w) && outcome == w.outcome && polls == w.k + 1
      ensures log == old(log) + WaitCalls(old(polls), w)
    {
      var now := Clock();
      var decided;
      outcome, decided := WaitForTurn(trace, polls, now + timeout, base);
      w := Wait(decided, now + timeout, outcome);
      log := log + WaitCalls(polls, w);
      polls := decided + 1;
    }
  }

  /** A wait from poll `start` on, with `timeout` counted from a clock no later than that poll. */
  ghost predicate Waited(trace: Trace, start: nat, timeout: nat, base: Baseline, w: Wait) {
    FirstDecision(trace, start, w.deadline, base, w.k, w.outcome) && w.deadline <= trace(start).at + timeout
  }

  // ----- what the record of a run must look like -----

  /** The last read: its text is the result, and the steps so far are complete. */
  predicate ReadLast(calls: seq<Call>, before: seq<Step>, result: Result<string, Failure>, steps: seq<Step>) {
    && |calls| == 1 && calls[0].ReadOutput?
    && match calls[0].output
       case Some(text) => result == Success(text) && steps == before + [ReadTheOutput]
       case None => result == Failure(CallFailed)
  }

  /**
   What happens between launch and cleanup: the first wait and the calls after it, and with a
   follow-up the second wait and the calls after that.
   */
  datatype Middle = Middle(first: Wait, rest: seq<Call>, second: Wait, last: seq<Call>)

  /** What follows the second wait. */
  predicate ReadAfter(rest: seq<Call>, status: string, outcome: WaitOutcome, result: Result<string, Failure>,
                      steps: seq<Step>) {
    if outcome.Finished? then
      ReadLast(rest, [WaitedForTurn(status), SentMessage, WaitedForTurn(outcome.status)], result, steps)
    else rest == [] && result == Failure(TurnFailed(outcome))
  }

  /** The output size, the message, the second wait from the ready status of the first, and the read. */
  ghost predicate FollowedUp(trace: Trace, start: nat, timeout: nat, calls: seq<Call>, text: string, status: string,
                             result: Result<string, Failure>, steps: seq<Step>, second: Wait, last: seq<Call>) {
    || (calls == [OutputSize(false)] && result == Failure(CallFailed))
    || (calls == [OutputSize(true), SendMessage(text, false)] && result == Failure(CallFailed))
    || (&& calls == [OutputSize(true), SendMessage(text, true)] + (WaitCalls(start, second) + last)
        && Waited(trace, start, timeout, Baseline(status, None), second)
        && ReadAfter(last, status, second.outcome, result, steps))
  }

  /** What follows the launch: the first wait, the follow-up if there is one, and the read. */
  ghost predicate Turned(trace: Trace, start: nat, timeout: nat, calls: seq<Call>, followUp: string,
                         result: Result<string, Failure>, steps: seq<Step>, m: Middle) {
    && Waited(trace, start, timeout, Baseline("unknown", None), m.first)
    && calls == WaitCalls(start, m.first) + m.rest
    && match m.first.outcome
       case Finished(status) =>
         if followUp == "" then ReadLast(m.rest, [WaitedForTurn(status)], result, steps)
         else FollowedUp(trace, m.first.k + 1, timeout, m.rest, followUp, status, result, steps, m.second, m.last)
       case _ => m.rest == [] && result == Failure(TurnFailed(m.first.outcome))
  }

  /** `session_is_absent`: the canonical not-found message, or an answer that is no object. */
  function Absent(info: InfoAnswer): Option<bool> {
    match info
    case InfoRaised => None
    case OtherFailure => None
    case CanonicalNotFound => Some(true)
    case NotAnObject => Some(true)
    case Present => Some(false)
  }

  /** How a launched run ends; without `info` the shutdown call raised. */
  function Final(name: string, terminal: string, result: Result<string, Failure>, steps: seq<Step>,
                 reply: ShutdownAnswer, info: Option<InfoAnswer>): Ended
  {
    if info.None? || Absent(info.value).None? then Raised(CleanupUnknown)
    else if result.Failure? then Raised(result.error)
    else if Absent(info.value) == Some(false) then Raised(CleanupNotVerified)
    else
      var all := [ListedProfiles, LaunchedSession] + steps + [ShutDown(reply.ShutdownDone?, true)];
      Returned(Report(all, name, terminal, result.value, true))
  }

  predicate Offers(listed: Call, profile: string) {
    listed.ListProfiles? && listed.installed.Some? && profile in listed.installed.value
  }

  predicate HasIdentity(answer: LaunchAnswer) {
    answer.Launched? && answer.name != "" && answer.terminal != ""
  }

  /** No launch, no shutdown, no lookup of the session. */
  ghost predicate Quiet(calls: seq<Call>) {
    forall c <- calls :: !c.ListProfiles? && !c.Launch? && !c.Shutdown? && !c.SessionInfo?
  }

  /** The last calls of a launched run: the shutdown, and the lookup unless the shutdown raised. */
  predicate EndsAt(log: seq<Call>, k: nat, name: string) {
    && k < |log| && log[k].Shutdown? && log[k].name == name
    && if log[k].reply.ShutdownRaised? then |log| == k + 1
       else |log| == k + 2 && log[k + 1].SessionInfo? && log[k + 1].name == name
  }

  function InfoAt(log: seq<Call>, k: nat): Option<InfoAnswer> {
    if k + 1 < |log| && log[k + 1].SessionInfo? then Some(log[k + 1].info) else None
  }

  /** From the launch on: quiet turns, then the end at `k`. */
  ghost predicate Concluded(trace: Trace, start: nat, timeout: nat, log: seq<Call>, k: nat, followUp: string,
                            ended: Ended)
    requires |log| >= 2 && log[1].Launch? && HasIdentity(log[1].answer)
  {
    && 2 <= k && EndsAt(log, k, log[1].answer.name) && Quiet(log[2..k])
    && exists result, steps, m :: EndsWith(trace, start, timeout, log, k, followUp, result, steps, m, ended)
  }

  /** The turns gave `result` and `steps`, and these end the run. */
  ghost predicate EndsWith(trace: Trace, start: nat, timeout: nat, log: seq<Call>, k: nat, followUp: string,
                           result: Result<string, Failure>, steps: seq<Step>, m: Middle, ended: Ended)
    requires |log| >= 2 && log[1].Launch? && HasIdentity(log[1].answer) && 2 <= k && EndsAt(log, k, log[1].answer.name)
  {
    && Turned(trace, start, timeout, log[2..k], followUp, result, steps, m)
    && ended == Final(log[1].answer.name, log[1].answer.terminal, result, steps, log[k].reply, InfoAt(log, k))
  }

  /** The whole record of a run of `run_lifecycle`, and how it ends. */
  ghost predicate Lifecycle(trace: Trace, start: nat, timeout: nat, log: seq<Call>, profile: string, followUp: string,
                            ended: Ended) {
    && |log| > 0 && log[0].ListProfiles?
    && if !Offers(log[0], profile) then |log| == 1 && ended == Raised(NoProfile)
       else
         && |log| > 1 && log[1].Launch?
         && if !HasIdentity(log[1].answer) then
              |log| == 2 && ended == Raised(if log[1].answer.Launched? then NoIdentity else NotLaunched)
            else exists k :: Concluded(trace, start, timeout, log, k, followUp, ended)
  }

  // ----- the driver -----

  lemma PollsAreQuiet(start: nat, w: Wait)
    ensures Quiet(WaitCalls(start, w))
  {
  }

  lemma QuietParts(a: seq<Call>, b: seq<Call>)
    requires Quiet(a) && Quiet(b)
    ensures Quiet(a + b)
  {
  }

  /** The second wait and the last read. */
  method WaitAgain(s: OpsSession, status: string, timeout: nat)
    returns (result: Result<string, Failure>, steps: seq<Step>, ghost second: Wait, ghost last: seq<Call>)
    requires Ticking(s.trace)
    modifies s
    ensures Waited(s.trace, old(s.polls), timeout, Baseline(status, None), second)
    ensures s.log == old(s.log) + (WaitCalls(old(s.polls), second) + last) && Quiet(last)
    ensures ReadAfter(last, status, second.outcome, result, steps)
  {
    var outcome;
    outcome, second := s.Await(Baseline(status, None), timeout);
    if !outcome.Finished? {
      return Failure(TurnFailed(outcome)), [], second, [];
    }
    var output := s.Read();
    last := [ReadOutput(output)];
    if output.None? {
      return Failure(CallFailed), [], second, last;
    }
    steps := [WaitedForTurn(status), SentMessage, WaitedForTurn(outcome.status)] + [ReadTheOutput];
    return Success(output.value), steps, second, last;
  }

  /** The follow-up message and everything after it. */
  method FollowUp(s: OpsSession, text: string, status: string, timeout: nat)
    returns (result: Result<string, Failure>, steps: seq<Step>, ghost calls: seq<Call>, ghost second: Wait,
             ghost last: seq<Call>)
    requires Ticking(s.trace)
    modifies s
    ensures s.log == old(s.log) + calls && Quiet(calls)
    ensures FollowedUp(s.trace, old(s.polls), timeout, calls, text, status, result, steps, second, last)
  {
    second, last := Wait(0, 0, TimedOut), [];
    var measured := s.MeasureOutput();
    if !measured {
      return Failure(CallFailed), [], [OutputSize(false)], second, last;
    }
    var sent := s.Send(text);
    calls := [OutputSize(true), SendMessage(text, sent)];
    assert s.log == old(s.log) + calls;
    if !sent {
      return Failure(CallFailed), [], calls, second, last;
    }
    result, steps, second, last := WaitAgain(s, status, timeout);
    PollsAreQuiet(old(s.polls), second);
    QuietParts(WaitCalls(old(s.polls), second), last);
    QuietParts(calls, WaitCalls(old(s.polls), second) + last);
    calls := calls + (WaitCalls(old(s.polls), second) + last);
  }

  /** The part of the lifecycle between launch and cleanup. */
  method Turns(s: OpsSession, followUp: string, timeout: nat)
    returns (result: Result<string, Failure>, steps: seq<Step>, ghost calls: seq<Call>, ghost m: Middle)
    requires Ticking(s.trace)
    modifies s
    ensures s.log == old(s.log) + calls && Quiet(calls)
    ensures Turned(s.trace, old(s.polls), timeout, calls, followUp, result, steps, m)
  {
    ghost var first, second, rest, last := Wait(0, 0, TimedOut), Wait(0, 0, TimedOut), [], [];
    var outcome;
    outcome, first := s.Await(Baseline("unknown", None), timeout);
    if !outcome.Finished? {
      result, steps := Failure(TurnFailed(outcome)), [];
    } else if followUp == "" {
      var output := s.Read();
      rest := [ReadOutput(output)];
      result := if output.Some? then Success(output.value) else Failure(CallFailed);
      steps := [WaitedForTurn(outcome.status)] + [ReadTheOutput];
    } else {
      result, steps, rest, second, last := FollowUp(s, followUp, outcome.status, timeout);
    }
    calls, m := WaitCalls(old(s.polls), first) + rest, Middle(first, rest, second, last);
    PollsAreQuiet(old(s.polls), first);
    QuietParts(WaitCalls(old(s.polls), first), rest);
  }

  /** The `finally` block, and how the run ends after it. */
  method Conclude(s: OpsSession, name: string, terminal: string, result: Result<string, Failure>, steps: seq<Step>)
    returns (ended: Ended)
    modifies s`log
    ensures old(s.log) <= s.log && EndsAt(s.log, |old(s.log)|, name)
    ensures ended == Final(name, terminal, result, steps, s.log[|old(s.log)|].reply, InfoAt(s.log, |old(s.log)|))
  {
    var reply := s.ShutdownSession(name);
    if reply.ShutdownRaised? {
      return Raised(CleanupUnknown);
    }
    var info := s.GetSessionInfo(name);
    var absent := Absent(info);
    if absent.None? {
      return Raised(CleanupUnknown);
    }
    if result.Failure? {
      return Raised(result.error);
    }
    if !absent.value {
      return Raised(CleanupNotVerified);
    }
    var all := [ListedProfiles, LaunchedSession] + steps + [ShutDown(reply.ShutdownDone?, true)];
    return Returned(Report(all, name, terminal, result.value, true));
  }

  /** Everything after a launch that yielded an identity. */
  method RunLaunched(s: OpsSession, name: string, terminal: string, followUp: string, timeout: nat)
    returns (ended: Ended)
    requires Ticking(s.trace) && |s.log| == 2 && s.log[1] == Launch(Launched(name, terminal))
    requires name != "" && terminal != ""
    modifies s
    ensures |s.log| > 2 && s.log[0] == old(s.log[0]) && s.log[1] == old(s.log[1])
    ensures exists k :: Concluded(s.trace, old(s.polls), timeout, s.log, k, followUp, ended)
  {
    ghost var calls, m;
    var result, steps;
    result, steps, calls, m := Turns(s, followUp, timeout);
    ghost var k := |s.log|;
    ended := Conclude(s, name, terminal, result, steps);
    assert s.log[2..k] == calls;
    assert EndsWith(s.trace, old(s.polls), timeout, s.log, k, followUp, result, steps, m, ended);
    assert Concluded(s.trace, old(s.polls), timeout, s.log, k, followUp, ended);
  }

  /** `run_lifecycle`: the record it leaves is that of a lifecycle, and decides how it ends. */
  method RunLifecycle(s: OpsSession, profile: string, followUp: string, timeout: nat) returns (ended: Ended)
    requires Ticking(s.trace) && s.log == []
    modifies s
    ensures Lifecycle(s.trace, old(s.polls), timeout, s.log, profile, followUp, ended)
  {
    var installed := s.ListInstalled();
    if installed.None? || profile !in installed.value {
      return Raised(NoProfile);
    }
    var answer := s.LaunchSession();
    ghost var launched := s.log;
    if !answer.Launched? {
      return Raised(NotLaunched);
    }
    if answer.name == "" || answer.terminal == "" {
      return Raised(NoIdentity);
    }
    ended := RunLaunched(s, answer.name, answer.terminal, followUp, timeout);
  }

  // ----- what every lifecycle guarantees -----

  /** How many shutdown calls a log holds. */
  function Shutdowns(log: seq<Call>): nat {
    if |log| == 0 then 0 else Shutdowns(log[..|log| - 1]) + (if log[|log| - 1].Shutdown? then 1 else 0)
  }

  lemma {:induction false} ShutdownsAppend(a: seq<Call>, b: seq<Call>)
    ensures Shutdowns(a + b) == Shutdowns(a) + Shutdowns(b)
  {
    if |b| == 0 {
      assert a + b == a;
    } else {
      assert (a + b)[..|a + b| - 1] == a + b[..|b| - 1];
      ShutdownsAppend(a, b[..|b| - 1]);
    }
  }

  lemma {:induction false} QuietHasNoShutdown(calls: seq<Call>)
    requires Quiet(calls)
    ensures Shutdowns(calls) == 0
  {
    if |calls| > 0 {
      assert calls[|calls| - 1] in calls;
      QuietHasNoShutdown(calls[..|calls| - 1]);
    }
  }

  lemma OneShutdown(log: seq<Call>, k: nat, name: string)
    requires 2 <= k && EndsAt(log, k, name) && Quiet(log[2..k])
    requires !log[0].Shutdown? && !log[1].Shutdown?
    ensures Shutdowns(log) == 1
  {
    var first, rest := log[..2], log[k + 1..];
    assert log == first + (log[2..k] + ([log[k]] + rest));
    ShutdownsAppend(first, log[2..k] + ([log[k]] + rest));
    ShutdownsAppend(log[2..k], [log[k]] + rest);
    ShutdownsAppend([log[k]], rest);
    QuietHasNoShutdown(log[2..k]);
    assert first == [log[0]] + [log[1]];
    ShutdownsAppend([log[0]], [log[1]]);
    assert Shutdowns([log[0]]) == 0 && Shutdowns([log[1]]) == 0 && Shutdowns([log[k]]) == 1;
    assert rest == [] || rest == [log[k + 1]];
    assert Shutdowns(rest) == 0;
  }

  /**
   Once a launch yields an identity, its session is shut down exactly once and afterwards,
   whichever later call fails.
   */
  lemma IdentityIsShutDown(trace: Trace, start: nat, timeout: nat, log: seq<Call>, profile: string, followUp: string,
                           ended: Ended, name: string, terminal: string)
    requires Lifecycle(trace, start, timeout, log, profile, followUp, ended)
    requires Launch(Launched(name, terminal)) in log && name != "" && terminal != ""
    ensures Shutdowns(log) == 1
    ensures exists i, k :: 0 <= i < k < |log| && log[i] == Launch(Launched(name, terminal))
                           && log[k].Shutdown? && log[k].name == name
  {
    var at :| 0 <= at < |log| && log[at] == Launch(Launched(name, terminal));
    assert at <= 1 || HasIdentity(log[1].answer);
    var k :| Concluded(trace, start, timeout, log, k, followUp, ended);
    OneLaunch(log, k, at);
    OneShutdown(log, k, name);
  }

  lemma OneLaunch(log: seq<Call>, k: nat, at: nat)
    requires 2 <= k < |log| && log[0].ListProfiles? && log[1].Launch? && Quiet(log[2..k])
    requires log[1].answer.Launched? && EndsAt(log, k, log[1].answer.name)
    requires at < |log| && log[at].Launch?
    ensures at == 1
  {
    assert forall j :: 2 <= j < k ==> log[j] == log[2..k][j - 2];
  }

  /** Without an identity nothing is shut down, and nothing is reported. */
  lemma NoIdentityNoShutdown(trace: Trace, start: nat, timeout: nat, log: seq<Call>, profile: string, followUp: string,
                             ended: Ended)
    requires Lifecycle(trace, start, timeout, log, profile, followUp, ended)
    requires forall c <- log :: c.Launch? ==> !HasIdentity(c.answer)
    ensures Shutdowns(log) == 0 && ended.Raised?
  {
    if |log| > 1 {
      assert log[1] in log && log[..1] == [log[0]] && log[..2] == log;
    }
    assert log[..1] == [log[0]] && log[..1][..0] == [];
    assert Shutdowns(log[..1]) == 0;
  }

  /**
   A report names the launched session and carries the text that was read; the session was
   shut down, and a lookup after that showed it to be gone.
   */
  lemma ReportIsVerified(trace: Trace, start: nat, timeout: nat, log: seq<Call>, profile: string, followUp: string,
                         ended: Ended)
    requires Lifecycle(trace, start, timeout, log, profile, followUp, ended) && ended.Returned?
    ensures Offers(log[0], profile) && Launch(Launched(ended.report.name, ended.report.terminal)) in log
    ensures SeenGone(log, ended.report.name)
    ensures WorkedThrough(trace, log, followUp, ended.report.output)
  {
    var k, result, steps, m := LongRunIsConcluded(trace, start, timeout, log, profile, followUp, ended);
    EndIsVerified(log, k, result, steps, ended);
    TurnsMean(trace, start, timeout, log[2..k], followUp, result.value, steps, m);
    WorkedBetween(trace, log, k, followUp, result.value);
  }

  lemma WorkedBetween(trace: Trace, log: seq<Call>, k: nat, followUp: string, text: string)
    requires 2 <= k <= |log| && WorkedThrough(trace, log[2..k], followUp, text)
    ensures WorkedThrough(trace, log, followUp, text)
  {
    WorkedInside(trace, log[..2], log[2..k], log[k..], followUp, text);
    assert log == log[..2] + log[2..k] + log[k..];
  }

  /** A run that got beyond the launch, or returned, went all the way. */
  lemma LongRunIsConcluded(trace: Trace, start: nat, timeout: nat, log: seq<Call>, profile: string, followUp: string,
                           ended: Ended)
    returns (k: nat, result: Result<string, Failure>, steps: seq<Step>, m: Middle)
    requires Lifecycle(trace, start, timeout, log, profile, followUp, ended) && (ended.Returned? || |log| > 2)
    ensures Offers(log[0], profile) && |log| > 1 && log[1].Launch? && HasIdentity(log[1].answer)
    ensures 2 <= k && EndsAt(log, k, log[1].answer.name)
    ensures EndsWith(trace, start, timeout, log, k, followUp, result, steps, m, ended)
  {
    k :| Concluded(trace, start, timeout, log, k, followUp, ended);
    result, steps, m :| EndsWith(trace, start, timeout, log, k, followUp, result, steps, m, ended);
  }

  /** The session was shut down, and a later lookup found it gone. */
  predicate SeenGone(log: seq<Call>, name: string) {
    exists k, j :: 0 <= k < j < |log| && log[k].Shutdown? && log[k].name == name && GoneAt(log[j], name)
  }

  predicate GoneAt(c: Call, name: string) {
    c.SessionInfo? && c.name == name && Absent(c.info) == Some(true)
  }

  lemma EndIsVerified(log: seq<Call>, k: nat, result: Result<string, Failure>, steps: seq<Step>, ended: Ended)
    requires |log| > 1 && log[1].Launch? && HasIdentity(log[1].answer) && EndsAt(log, k, log[1].answer.name)
    requires ended == Final(log[1].answer.name, log[1].answer.terminal, result, steps, log[k].reply, InfoAt(log, k))
    requires ended.Returned?
    ensures result == Success(ended.report.output)
    ensures Launch(Launched(ended.report.name, ended.report.terminal)) in log && SeenGone(log, ended.report.name)
  {
    assert log[1] == Launch(Launched(ended.report.name, ended.report.terminal));
    assert GoneAt(log[k + 1], ended.report.name);
  }

  /** A status that was active was looked up after the message had been sent. */
  ghost predicate ActiveAfterMessage(trace: Trace, log: seq<Call>, text: string) {
    exists i, j :: 0 <= i < j < |log| && log[i] == SendMessage(text, true) && ActiveAt(trace, log[j])
  }

  ghost predicate ActiveAt(trace: Trace, c: Call) {
    c.StatusLookup? && trace(c.i).answer.Status? && Active(trace(c.i).answer.status)
  }

  /** The output was read, and a follow-up was seen to be worked on. */
  ghost predicate WorkedThrough(trace: Trace, log: seq<Call>, followUp: string, text: string) {
    ReadOutput(Some(text)) in log && (followUp != "" ==> ActiveAfterMessage(trace, log, followUp))
  }

  lemma WorkedInside(trace: Trace, before: seq<Call>, calls: seq<Call>, after: seq<Call>, followUp: string,
                     text: string)
    requires WorkedThrough(trace, calls, followUp, text)
    ensures WorkedThrough(trace, before + calls + after, followUp, text)
  {
    var log := before + calls + after;
    assert forall j :: 0 <= j < |calls| ==> log[|before| + j] == calls[j];
    var at :| 0 <= at < |calls| && calls[at] == ReadOutput(Some(text));
    assert log[|before| + at] == ReadOutput(Some(text));
    if followUp != "" {
      var i, j :| 0 <= i < j < |calls| && calls[i] == SendMessage(followUp, true) && ActiveAt(trace, calls[j]);
      assert log[|before| + i] == SendMessage(followUp, true) && ActiveAt(trace, log[|before| + j]);
    }
  }

  /** Turns that succeed read the output, and a follow-up was seen to be worked on. */
  lemma TurnsMean(trace: Trace, start: nat, timeout: nat, calls: seq<Call>, followUp: string, text: string,
                  steps: seq<Step>, m: Middle)
    requires Turned(trace, start, timeout, calls, followUp, Success(text), steps, m)
    ensures WorkedThrough(trace, calls, followUp, text)
  {
    var status := m.first.outcome.status;
    FinishedMeans(trace, start, m.first.deadline, Baseline("unknown", None), m.first.k, status);
    if followUp == "" {
      assert m.rest == [ReadOutput(Some(text))];
      assert m.rest[0] in m.rest;
    } else {
      FollowUpMeans(trace, m.first.k + 1, timeout, m.rest, followUp, status, text, steps, m.second, m.last);
    }
    WorkedInside(trace, WaitCalls(start, m.first), m.rest, [], followUp, text);
    assert WaitCalls(start, m.first) + m.rest + [] == calls;
  }

  /** The second wait starts from a ready status, so only an active one lets it return. */
  lemma FollowUpMeans(trace: Trace, start: nat, timeout: nat, calls: seq<Call>, followUp: string, status: string,
                      text: string, steps: seq<Step>, second: Wait, last: seq<Call>)
    requires FollowedUp(trace, start, timeout, calls, followUp, status, Success(text), steps, second, last)
    requires Ready(status)
    ensures WorkedThrough(trace, calls, followUp, text)
  {
    var polled, two := WaitCalls(start, second), [OutputSize(true), SendMessage(followUp, true)];
    assert last == [ReadOutput(Some(text))] && calls == two + (polled + last);
    ReadyBaselineNeedsActivity(trace, start, second.deadline, Baseline(status, None), second.k, second.outcome.status);
    var p :| start <= p < second.k && trace(p).answer.Status? && Active(trace(p).answer.status);
    assert polled[p - start] == StatusLookup(p);
    ThenActive(trace, followUp, polled, last, p - start);
    assert (two + (polled + last))[|two + polled|] == ReadOutput(Some(text));
  }

  lemma ThenActive(trace: Trace, text: string, polled: seq<Call>, last: seq<Call>, i: nat)
    requires i < |polled| && ActiveAt(trace, polled[i])
    ensures ActiveAfterMessage(trace, [OutputSize(true), SendMessage(text, true)] + (polled + last), text)
  {
    var calls := [OutputSize(true), SendMessage(text, true)] + (polled + last);
    assert calls[1] == SendMessage(text, true) && calls[2 + i] == polled[i];
  }

  /** The steps between launch and cleanup of a run that reports. */
  predicate TurnsInOrder(followUp: string, turns: seq<Step>) {
    if followUp == "" then |turns| == 2 && turns[0].WaitedForTurn? && turns[1] == ReadTheOutput
    else
      && |turns| == 4 && turns[0].WaitedForTurn? && turns[1] == SentMessage
      && turns[2].WaitedForTurn? && turns[3] == ReadTheOutput
  }

  /** A report records every step, in order. */
  lemma ReportSteps(trace: Trace, start: nat, timeout: nat, log: seq<Call>, profile: string, followUp: string,
                    ended: Ended) returns (turns: seq<Step>, reported: bool)
    requires Lifecycle(trace, start, timeout, log, profile, followUp, ended) && ended.Returned?
    ensures TurnsInOrder(followUp, turns)
    ensures ended.report.steps == [ListedProfiles, LaunchedSession] + turns + [ShutDown(reported, true)]
  {
    var k, result, steps, m := LongRunIsConcluded(trace, start, timeout, log, profile, followUp, ended);
    TurnSteps(trace, start, timeout, log[2..k], followUp, result.value, steps, m);
    turns, reported := steps, log[k].reply.ShutdownDone?;
  }

  lemma TurnSteps(trace: Trace, start: nat, timeout: nat, calls: seq<Call>, followUp: string, text: string,
                  steps: seq<Step>, m: Middle)
    requires Turned(trace, start, timeout, calls, followUp, Success(text), steps, m)
    ensures TurnsInOrder(followUp, steps)
  {
  }

  /** An output was read. */
  predicate ReadSome(calls: seq<Call>) {
    exists c <- calls :: c.ReadOutput? && c.output.Some?
  }

  lemma ReadInParts(a: seq<Call>, b: seq<Call>)
    ensures ReadSome(a + b) <==> ReadSome(a) || ReadSome(b)
  {
    assert forall c :: c in a + b <==> c in a || c in b;
  }

  lemma PollsReadNothing(start: nat, w: Wait)
    ensures !ReadSome(WaitCalls(start, w))
  {
  }

  /** Turns that fail have read no output. */
  lemma FailedTurnsReadNothing(trace: Trace, start: nat, timeout: nat, calls: seq<Call>, followUp: string,
                               error: Failure, steps: seq<Step>, m: Middle)
    requires Turned(trace, start, timeout, calls, followUp, Failure(error), steps, m)
    ensures !ReadSome(calls)
  {
    PollsReadNothing(start, m.first);
    ReadInParts(WaitCalls(start, m.first), m.rest);
    if m.first.outcome.Finished? && followUp != "" {
      FailedFollowUpReadsNothing(trace, m.first.k + 1, timeout, m.rest, followUp, m.first.outcome.status, error, steps,
        m.second, m.last);
    }
  }

  lemma FailedFollowUpReadsNothing(trace: Trace, start: nat, timeout: nat, calls: seq<Call>, followUp: string,
                                   status: string, error: Failure, steps: seq<Step>, second: Wait, last: seq<Call>)
    requires FollowedUp(trace, start, timeout, calls, followUp, status, Failure(error), steps, second, last)
    ensures !ReadSome(calls)
  {
    var two := [OutputSize(true), SendMessage(followUp, true)];
    PollsReadNothing(start, second);
    ReadInParts(WaitCalls(start, second), last);
    ReadInParts(two, WaitCalls(start, second) + last);
    assert !ReadSome(two);
  }

  /**
   A run that read its output returns a report exactly when the lookup after the shutdown gave
   the canonical message, or an answer that is no object at all: that counts as gone.
   */
  lemma ReadIsReportedExactly(trace: Trace, start: nat, timeout: nat, log: seq<Call>, profile: string,
                              followUp: string, ended: Ended)
    requires Lifecycle(trace, start, timeout, log, profile, followUp, ended) && ReadSome(log)
    ensures var last := log[|log| - 1];
      ended.Returned? <==> last.SessionInfo? && (last.info == CanonicalNotFound || last.info == NotAnObject)
  {
    assert |log| > 2 by { ReadNeedsLaunch(log); }
    var k, result, steps, m := LongRunIsConcluded(trace, start, timeout, log, profile, followUp, ended);
    ReadBeforeEnd(log, k);
    if result.Failure? {
      FailedTurnsReadNothing(trace, start, timeout, log[2..k], followUp, result.error, steps, m);
    }
    EndDecides(log, k, result, steps, ended);
  }

  lemma ReadNeedsLaunch(log: seq<Call>)
    requires ReadSome(log) && |log| > 0 && log[0].ListProfiles? && (|log| > 1 ==> log[1].Launch?)
    ensures |log| > 2
  {
  }

  lemma EndDecides(log: seq<Call>, k: nat, result: Result<string, Failure>, steps: seq<Step>, ended: Ended)
    requires |log| > 1 && log[1].Launch? && HasIdentity(log[1].answer) && EndsAt(log, k, log[1].answer.name)
    requires ended == Final(log[1].answer.name, log[1].answer.terminal, result, steps, log[k].reply, InfoAt(log, k))
    requires result.Success?
    ensures var last := log[|log| - 1];
      ended.Returned? <==> last.SessionInfo? && (last.info == CanonicalNotFound || last.info == NotAnObject)
  {
  }

  lemma ReadBeforeEnd(log: seq<Call>, k: nat)
    requires 2 <= k < |log| && log[0].ListProfiles? && log[1].Launch? && log[1].answer.Launched?
    requires EndsAt(log, k, log[1].answer.name) && ReadSome(log)
    ensures ReadSome(log[2..k])
  {
    var first, end := log[..2], log[k..];
    assert log == first + (log[2..k] + end);
    ReadInParts(first, log[2..k] + end);
    ReadInParts(log[2..k], end);
    assert first == [log[0], log[1]];
    assert end == [log[k]] || end == [log[k], log[k + 1]];
  }
}
