/**
 Waiting for a dispatched turn.  A ready status alone proves nothing, so the loop returns
 only with evidence; here it is shown to stop at the first poll that decides.
 */
module TurnWait {
  import opened Wrappers

  predicate Ready(status: string) {
    status == "idle" || status == "completed"
  }

  predicate Active(status: string) {
    status == "processing" || status == "waiting_user_answer"
  }

  predicate Dead(status: string) {
    status == "error"
  }

  /** One status lookup: it may raise, report failure, or name a status. */
  datatype StatusAnswer = CallRaised | ToolFailed | Status(status: string)

  datatype SizeAnswer = SizeUnreadable | Size(chars: int)

  /** What the `i`-th poll finds: the clock before it, the status, and the output size right after. */
  datatype Poll = Poll(at: nat, answer: StatusAnswer, size: SizeAnswer)

  /** Everything the terminal will answer, poll by poll. */
  type Trace = nat -> Poll

  /** Sleeping between polls lets the clock advance. */
  ghost predicate Ticking(trace: Trace) {
    forall i: nat :: trace(i).at < trace(i + 1).at
  }

  datatype Baseline = Baseline(status: string, size: Option<int>)

  datatype WaitOutcome = Finished(status: string) | LookupFailed | Died(status: string) | TimedOut

  // ----- the decision at one poll -----

  /** An active status was seen at a poll in `[start, i)`. */
  predicate SawActivity(trace: Trace, start: nat, i: nat) {
    exists j :: start <= j < i && trace(j).answer.Status? && Active(trace(j).answer.status)
  }

  /** Output was produced past the recorded size. */
  predicate Grew(p: Poll, base: Baseline) {
    base.size.Some? && p.size.Size? && p.size.chars > base.size.value
  }

  /** A turn that ran: activity since the start, completion of a first turn, or new output. */
  predicate Evidence(trace: Trace, start: nat, i: nat, base: Baseline) {
    || SawActivity(trace, start, i)
    || (trace(i).answer == Status("completed") && !Ready(base.status))
    || Grew(trace(i), base)
  }

  /** The output size had to be read at poll `i` and could not be. */
  predicate SizeNeeded(trace: Trace, start: nat, i: nat, base: Baseline) {
    && base.size.Some? && !SawActivity(trace, start, i)
    && !(trace(i).answer == Status("completed") && !Ready(base.status))
  }

  /** What poll `i` decides; nothing when the wait goes on. */
  function Verdict(trace: Trace, start: nat, i: nat, base: Baseline): Option<WaitOutcome> {
    match trace(i).answer
    case CallRaised => Some(LookupFailed)
    case ToolFailed => Some(LookupFailed)
    case Status(status) =>
      if Dead(status) then Some(Died(status))
      else if !Ready(status) then None
      else if SizeNeeded(trace, start, i, base) && trace(i).size.SizeUnreadable? then Some(LookupFailed)
      else if Evidence(trace, start, i, base) then Some(Finished(status))
      else None
  }

  /** `k` is the first poll that decides or comes too late, and `outcome` is what it decides. */
  ghost predicate FirstDecision(trace: Trace, start: nat, deadline: nat, base: Baseline, k: nat, outcome: WaitOutcome) {
    && start <= k
    && (forall j :: start <= j < k ==> trace(j).at < deadline && Verdict(trace, start, j, base).None?)
    && (if trace(k).at >= deadline then outcome == TimedOut else Verdict(trace, start, k, base) == Some(outcome))
  }

  /** The specification leaves no choice. */
  lemma DecisionIsUnique(trace: Trace, start: nat, deadline: nat, base: Baseline,
                         k: nat, a: WaitOutcome, l: nat, b: WaitOutcome)
    requires FirstDecision(trace, start, deadline, base, k, a)
    requires FirstDecision(trace, start, deadline, base, l, b)
    ensures k == l && a == b
  {
  }

  /** `wait_for_turn`, polling from poll `start` on. */
  method WaitForTurn(trace: Trace, start: nat, deadline: nat, base: Baseline)
    returns (outcome: WaitOutcome, k: nat)
    requires Ticking(trace)
    ensures FirstDecision(trace, start, deadline, base, k, outcome)
  {
    var sawActivity := false;
    k := start;
    while trace(k).at < deadline
      invariant start <= k && sawActivity == SawActivity(trace, start, k)
      invariant forall j :: start <= j < k ==> trace(j).at < deadline && Verdict(trace, start, j, base).None?
      decreases deadline - trace(k).at
    {
      var answer := trace(k).answer;
      if !answer.Status? {
        return LookupFailed, k;
      }
      var status := answer.status;
      if Dead(status) {
        return Died(status), k;
      }
      if Active(status) {
        sawActivity := true;
      } else if Ready(status) {
        if sawActivity {
          return Finished(status), k;
        }
        if status == "completed" && !Ready(base.status) {
          return Finished(status), k;
        }
        if base.size.Some? {
          if trace(k).size.SizeUnreadable? {
            return LookupFailed, k;
          }
          if trace(k).size.chars > base.size.value {
            return Finished(status), k;
          }
        }
      }
      ActivityStep(trace, start, k);
      k := k + 1;
    }
    outcome := TimedOut;
  }

  lemma ActivityStep(trace: Trace, start: nat, k: nat)
    requires start <= k
    ensures SawActivity(trace, start, k + 1)
      <==> SawActivity(trace, start, k) || (trace(k).answer.Status? && Active(trace(k).answer.status))
  {
  }

  // ----- what a finished wait means -----

  /** The wait returns a ready status with evidence, before the deadline, after no decisive poll. */
  lemma FinishedMeans(trace: Trace, start: nat, deadline: nat, base: Baseline, k: nat, status: string)
    requires FirstDecision(trace, start, deadline, base, k, Finished(status))
    ensures Ready(status) && trace(k).answer == Status(status) && trace(k).at < deadline
    ensures Evidence(trace, start, k, base)
    ensures forall j :: start <= j < k ==> trace(j).answer.Status? && !Dead(trace(j).answer.status)
  {
    assert forall j :: start <= j < k ==> Verdict(trace, start, j, base).None?;
  }

  /** Without a size and from a ready baseline, only an observed active status is evidence. */
  lemma ReadyBaselineNeedsActivity(trace: Trace, start: nat, deadline: nat, base: Baseline, k: nat, status: string)
    requires FirstDecision(trace, start, deadline, base, k, Finished(status))
    requires Ready(base.status) && base.size.None?
    ensures SawActivity(trace, start, k)
  {
    FinishedMeans(trace, start, deadline, base, k, status);
  }

  /** A terminal that stays ready and shows no evidence is waited for until the deadline. */
  lemma NoEvidenceTimesOut(trace: Trace, start: nat, deadline: nat, base: Baseline, k: nat, outcome: WaitOutcome)
    requires FirstDecision(trace, start, deadline, base, k, outcome)
    requires Ready(base.status) && base.size.None?
    requires forall j :: start <= j <= k ==> trace(j).answer.Status? && Ready(trace(j).answer.status)
    ensures outcome == TimedOut
  {
    assert !SawActivity(trace, start, k) by {
      assert forall s :: Ready(s) ==> !Active(s);
    }
  }
}
