/** Every recall of a run traced back to the lookup that chose the echo. */
module LifecycleRecall {
  import opened Wrappers
  import opened Policy
  import opened Messages
  import opened Store
  import opened Lifecycle
  import opened LifecycleInvariants
  import opened LifecycleSteps
  import opened LifecycleSafety

  /** The call is on its way to recall this echo. */
  predicate Heads(calls: map<nat, Call>, c: nat, echo: Uuid) {
    c in calls && match calls[c].phase
                  case Looked(found) => found == Some(echo)
                  case Marking(_, marked) => marked == echo
                  case _ => false
  }

  /** A lookup for the call's message that finds this echo. */
  predicate Finds(s: State, step: Step, c: nat, m: Msg, echo: Uuid) {
    && c in s.calls && s.calls[c].msg == m
    && step.CallStep? && step.callStep.FindEcho? && step.callStep.call == c && step.callStep.echo == Some(echo)
  }

  /** What a step of one call does to the calls. */
  lemma OneCallMoves(s: State, step: CallStep)
    requires CallEnabled(s, step) && !step.StoreRow?
    ensures var calls := ApplyCall(s, step).calls;
            && step.call in calls && calls == s.calls[step.call := calls[step.call]]
            && (step.Begin? || (step.call in s.calls && calls[step.call].msg == s.calls[step.call].msg))
            && (calls[step.call].phase.Looked? ==> step.FindEcho? && calls[step.call].phase.found == step.echo)
            && !calls[step.call].phase.Marking?
  {
    hide KeyTaken, IsRecentEcho, NoRecentEcho, MayStore, Insert, MarkRecalled;
  }

  lemma StoringMoves(s: State, c: nat, row: Row, job: nat, hasConsumer: bool)
    requires c in s.calls && MayStore(s, s.calls[c], row)
    ensures var calls := AfterStore(s, c, row, job, hasConsumer).calls;
            && c in calls && calls == s.calls[c := calls[c]] && calls[c].msg == s.calls[c].msg
            && !calls[c].phase.Looked?
            && (calls[c].phase.Marking? ==> s.calls[c].phase == Looked(Some(calls[c].phase.echo)))
  {
    StoringAdvances(s, c, row, job, hasConsumer);
    RecalledWasFound(s, s.calls[c], row);
    hide AfterStore, MayStore;
  }

  lemma StoringAdvances(s: State, c: nat, row: Row, job: nat, hasConsumer: bool)
    requires c in s.calls && MayStore(s, s.calls[c], row)
    ensures exists phase ::
              && AfterStore(s, c, row, job, hasConsumer).calls == s.calls[c := s.calls[c].(phase := phase)]
              && (phase.KeyHeld? || phase.Answered?
                  || (row.action == Recalled && phase == Marking(row.id, s.calls[c].phase.found.value)))
  {
    hide KeyTaken, Insert, JobFor, WithJob, IsRowFor;
    var phase := AfterStore(s, c, row, job, hasConsumer).calls[c].phase;
    assert AfterStore(s, c, row, job, hasConsumer).calls == s.calls[c := s.calls[c].(phase := phase)];
  }

  lemma RecalledWasFound(s: State, c: Call, row: Row)
    requires MayStore(s, c, row)
    ensures row.action == Recalled ==> c.phase.Looked? && c.phase.found.Some?
  {
    hide IsRowFor;
  }

  lemma CallHeads(s: State, step: CallStep, c: nat, echo: Uuid)
    requires CallEnabled(s, step) && Heads(ApplyCall(s, step).calls, c, echo)
    ensures c in s.calls && s.calls[c].msg == ApplyCall(s, step).calls[c].msg
    ensures Heads(s.calls, c, echo) || Finds(s, CallStep(step), c, s.calls[c].msg, echo)
  {
    if step.StoreRow? {
      StoringMoves(s, step.call, step.row, step.job, step.hasConsumer);
      hide MayStore, AfterStore;
    } else {
      OneCallMoves(s, step);
      hide CallEnabled, ApplyCall;
    }
  }

  lemma OthersKeepCalls(s: State, step: Step, c: nat, echo: Uuid)
    requires Enabled(s, step) && !step.CallStep? && Heads(Apply(s, step).calls, c, echo)
    ensures c in s.calls && Heads(s.calls, c, echo) && s.calls[c] == Apply(s, step).calls[c]
  {
    hide JobEnabled, ReplayEnabled, RetentionEnabled, ApplyJob, ApplyReplay, ApplyRetention;
    match step {
      case QueueStep(q) => QueueBeginsCalls(s, q, c, echo);
      case JobStep(j) => JobCallsNothing(s, j);
      case ReplayStep(r) => ReplayRecallsNothing(s, r);
      case RetentionStep(t) => RetentionRecallsNothing(s, t);
    }
  }

  lemma QueueBeginsCalls(s: State, step: QueueStep, c: nat, echo: Uuid)
    requires QueueEnabled(s, step) && Heads(ApplyQueue(s, step).calls, c, echo)
    ensures c in s.calls && Heads(s.calls, c, echo) && s.calls[c] == ApplyQueue(s, step).calls[c]
  {
    hide QueueAfter;
  }

  lemma JobCallsNothing(s: State, step: JobStep)
    requires JobEnabled(s, step)
    ensures ApplyJob(s, step).calls == s.calls
  {
    hide OutboundAllowed, IsRowOf, Insert, MarkFired, Marked;
  }

  lemma StepHeads(s: State, step: Step, c: nat, echo: Uuid)
    requires Enabled(s, step) && Heads(Apply(s, step).calls, c, echo)
    ensures c in s.calls && s.calls[c].msg == Apply(s, step).calls[c].msg
    ensures Heads(s.calls, c, echo) || Finds(s, step, c, s.calls[c].msg, echo)
  {
    hide QueueEnabled, CallEnabled, JobEnabled, ReplayEnabled, RetentionEnabled;
    hide ApplyQueue, ApplyCall, ApplyJob, ApplyReplay, ApplyRetention, Heads;
    match step {
      case CallStep(call) => CallHeads(s, call, c, echo);
      case _ => OthersKeepCalls(s, step, c, echo);
    }
  }

  lemma {:induction false} HeadsWasFound(run: seq<State>, steps: seq<Step>, n: nat, c: nat, echo: Uuid)
    requires IsRun(run, steps) && n < |run| && Heads(run[n].calls, c, echo)
    ensures exists i :: 0 <= i < n && Finds(run[i], steps[i], c, run[n].calls[c].msg, echo)
  {
    hide Heads, Finds, Enabled, Apply;
    if n == 0 {
      NothingHeads(run, steps, c, echo);
    } else {
      StepHeads(run[n - 1], steps[n - 1], c, echo);
      if Heads(run[n - 1].calls, c, echo) {
        HeadsWasFound(run, steps, n - 1, c, echo);
      }
    }
  }

  lemma NothingHeads(run: seq<State>, steps: seq<Step>, c: nat, echo: Uuid)
    requires IsRun(run, steps)
    ensures !Heads(run[0].calls, c, echo)
  {}

  /** A recall enters the log when its call marks the echo. */
  lemma StepRecalls(s: State, step: Step, oops: Uuid)
    requires Enabled(s, step) && oops in Apply(s, step).recalledBy && oops !in s.recalledBy
    ensures exists c :: Heads(s.calls, c, Apply(s, step).recalledBy[oops]) && IsMarkingFor(s.calls, c, oops)
  {
    hide QueueEnabled, CallEnabled, JobEnabled, ReplayEnabled, RetentionEnabled;
    hide ApplyQueue, ApplyCall, ApplyJob, ApplyReplay, ApplyRetention, Heads, IsMarkingFor;
    match step {
      case QueueStep(q) => QueueRecallsNothing(s, q);
      case CallStep(call) => CallRecalls(s, call, oops);
      case JobStep(j) => JobTouches(s, j);
      case ReplayStep(r) => ReplayRecallsNothing(s, r);
      case RetentionStep(t) => RetentionRecallsNothing(s, t);
    }
  }

  predicate IsMarkingFor(calls: map<nat, Call>, c: nat, oops: Uuid) {
    c in calls && calls[c].phase.Marking? && calls[c].phase.oops == oops
  }

  lemma QueueRecallsNothing(s: State, step: QueueStep)
    requires QueueEnabled(s, step)
    ensures ApplyQueue(s, step).recalledBy == s.recalledBy
  {
    hide QueueAfter;
  }

  lemma CallRecalls(s: State, step: CallStep, oops: Uuid)
    requires CallEnabled(s, step) && oops in ApplyCall(s, step).recalledBy && oops !in s.recalledBy
    ensures exists c :: Heads(s.calls, c, ApplyCall(s, step).recalledBy[oops]) && IsMarkingFor(s.calls, c, oops)
  {
    CallTouches(s, step);
    assert step.MarkEcho?;
    hide MarkRecalled;
    assert Heads(s.calls, step.call, ApplyCall(s, step).recalledBy[oops]) && IsMarkingFor(s.calls, step.call, oops);
  }

  lemma ReplayRecallsNothing(s: State, step: ReplayStep)
    requires ReplayEnabled(s, step)
    ensures ApplyReplay(s, step).recalledBy == s.recalledBy && ApplyReplay(s, step).calls == s.calls
  {
    hide IsUnfiredListing, MarkFired;
  }

  lemma RetentionRecallsNothing(s: State, step: RetentionStep)
    ensures ApplyRetention(s, step).recalledBy == s.recalledBy && ApplyRetention(s, step).calls == s.calls
  {
    hide UpdateWhere, DeleteRows;
  }

  /** The call's message is what its stored OOPS holds. */
  lemma MarkingIsOops(s: State, c: nat, oops: Uuid)
    requires Inv(s) && IsMarkingFor(s.calls, c, oops)
    ensures c in s.calls && IsOops(s.db.born, oops, s.calls[c].msg)
  {
    hide DbInv, RowsOwned, FiredAcked, JobsSound, OneJobPerRow, MarkingOnce, OutgoingSound, SentSound, RecallsSound;
    hide RecallsBacked, RunsSound, SingleFlight, NothingLost, DeliveriesSound, AckedStored, IsOops, IsEchoFor;
    assert CallSound(s.calls[c], s.db.born);
  }

  /** A lookup for this OOPS that found this echo: in its window, and none newer then. */
  ghost predicate IsLookup(s: State, step: Step, oops: Row, echo: Uuid) {
    && step.CallStep? && step.callStep.FindEcho? && step.callStep.echo == Some(echo)
    && step.callStep.call in s.calls && s.calls[step.callStep.call].msg.platformId == oops.platformId
    && oops.account.Some?
    && IsRecentEcho(s.db.table, oops.account.value, oops.senderEndpoint, step.callStep.cutoff, echo)
  }

  lemma FindingIsLookup(s: State, step: Step, c: nat, m: Msg, born: Table, oops: Uuid, echo: Uuid)
    requires Enabled(s, step) && Finds(s, step, c, m, echo) && IsOops(born, oops, m)
    ensures IsLookup(s, step, born[oops], echo)
  {
    hide IsRecentEcho, NoRecentEcho;
  }

  /** Every recall goes back to a lookup made earlier for that very OOPS, by which the echo was
      then the newest unrecalled one of its account and sender in the window: whatever is
      stored, recalled or purged between the lookup and the marking. */
  lemma {:induction false} RecallWasLookedUp(run: seq<State>, steps: seq<Step>, n: nat, oops: Uuid)
    requires IsRun(run, steps) && n < |run| && oops in run[n].recalledBy
    ensures oops in run[n].db.born
    ensures exists i :: 0 <= i < n && IsLookup(run[i], steps[i], run[n].db.born[oops], run[n].recalledBy[oops])
  {
    hide Heads, Finds, IsLookup, IsMarkingFor, IsOops, Inv, LogsKept, Enabled, Apply;
    InvHolds(run, steps, n);
    if n > 0 {
      Onward(run, steps, n - 1, n);
      if oops in run[n - 1].recalledBy {
        RecallWasLookedUp(run, steps, n - 1, oops);
        RecallStays(run[n - 1], run[n], oops);
      } else {
        NewRecallWasLookedUp(run, steps, n, oops);
      }
    } else {
      NoRecallYet(run, steps);
    }
  }

  lemma NoRecallYet(run: seq<State>, steps: seq<Step>)
    requires IsRun(run, steps)
    ensures run[0].recalledBy == map[]
  {}

  lemma RecallStays(s: State, s': State, oops: Uuid)
    requires LogsKept(s, s') && oops in s.recalledBy
    ensures oops in s'.recalledBy && s'.recalledBy[oops] == s.recalledBy[oops]
  {
    hide RunKept;
  }

  lemma NewRecallWasLookedUp(run: seq<State>, steps: seq<Step>, n: nat, oops: Uuid)
    requires IsRun(run, steps) && 0 < n < |run| && oops in run[n].recalledBy && oops !in run[n - 1].recalledBy
    ensures oops in run[n].db.born
    ensures exists i :: 0 <= i < n && IsLookup(run[i], steps[i], run[n].db.born[oops], run[n].recalledBy[oops])
  {
    hide Heads, Finds, IsLookup, IsMarkingFor, Inv, LogsKept, Enabled, Apply, IsOops;
    var echo := run[n].recalledBy[oops];
    StepRecalls(run[n - 1], steps[n - 1], oops);
    var c :| Heads(run[n - 1].calls, c, echo) && IsMarkingFor(run[n - 1].calls, c, oops);
    InvHolds(run, steps, n - 1);
    MarkingIsOops(run[n - 1], c, oops);
    HeadsWasFound(run, steps, n - 1, c, echo);
    var i :| 0 <= i < n - 1 && Finds(run[i], steps[i], c, run[n - 1].calls[c].msg, echo);
    FindingIsLookup(run[i], steps[i], c, run[n - 1].calls[c].msg, run[n - 1].db.born, oops, echo);
    Onward(run, steps, n - 1, n);
    OopsIsBorn(run[n - 1].db.born, oops, run[n - 1].calls[c].msg);
  }

  lemma OopsIsBorn(born: Table, oops: Uuid, m: Msg)
    requires IsOops(born, oops, m)
    ensures oops in born
  {}
}
