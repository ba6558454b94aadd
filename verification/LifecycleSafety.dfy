/** What holds in every state of every run of the message lifecycle, and between any two. */
module LifecycleSafety {
  import opened Wrappers
  import opened Policy
  import opened Decision
  import opened Canonical
  import opened Messages
  import opened Store
  import opened Forwarding
  import opened Retention
  import opened Lifecycle
  import opened LifecycleInvariants
  import opened LifecycleSteps

  // ----- Between two states of a run -----

  /** What no step takes back: the logs, the tenant of a run, and the rows a run listed. */
  ghost predicate LogsKept(s: State, s': State) {
    && s'.accounts == s.accounts && s.sent <= s'.sent && s.acks <= s'.acks
    && (forall e :: e in s.queue.accepted ==> e in s'.queue.accepted && s'.queue.accepted[e] == s.queue.accepted[e])
    && (forall o :: o in s.recalledBy ==> o in s'.recalledBy && s'.recalledBy[o] == s.recalledBy[o])
    && (forall j :: j in s.jobs ==> j in s'.jobs && s'.jobs[j].origin == s.jobs[j].origin)
    && (forall r :: r in s.runs ==> r in s'.runs && RunKept(s.runs[r], s'.runs[r]))
  }

  ghost predicate RunKept(run: ReplayRun, run': ReplayRun) {
    && run'.tenant == run.tenant && run'.dry == run.dry
    && (!run.phase.Listing? ==> !run'.phase.Listing? && run'.phase.rows == run.phase.rows)
    && (run.phase.Ended? ==> run'.phase == run.phase)
  }

  lemma QueueKeepsLogs(s: State, step: QueueStep)
    requires QueueEnabled(s, step)
    ensures LogsKept(s, ApplyQueue(s, step))
  {}

  /** A call touches calls, rows and jobs only, and the log of recalls. */
  ghost predicate SameButCalls(s: State, s': State) {
    && s'.accounts == s.accounts && s'.sent == s.sent && s'.acks == s.acks && s'.queue == s.queue && s'.runs == s.runs
    && forall j :: j in s.jobs ==> j in s'.jobs && s'.jobs[j] == s.jobs[j]
  }

  lemma StoreTouches(s: State, c: nat, row: Row, job: nat, hasConsumer: bool)
    requires c in s.calls && MayStore(s, s.calls[c], row) && job !in s.jobs
    ensures SameButCalls(s, AfterStore(s, c, row, job, hasConsumer))
    ensures AfterStore(s, c, row, job, hasConsumer).recalledBy == s.recalledBy
  {
    hide KeyTaken, Insert, JobFor;
  }

  lemma MarkTouches(s: State, c: nat, o: Outcome, job: nat)
    requires c in s.calls && s.calls[c].phase.Marking? && job !in s.jobs
    ensures SameButCalls(s, AfterMark(s, c, o, job))
  {
    hide MarkRecalled;
  }

  lemma CallTouches(s: State, step: CallStep)
    requires CallEnabled(s, step)
    ensures SameButCalls(s, ApplyCall(s, step))
    ensures !step.MarkEcho? ==> ApplyCall(s, step).recalledBy == s.recalledBy
  {
    hide KeyTaken, IsRecentEcho, NoRecentEcho, MayStore, Insert, AfterStore, AfterMark;
    if step.StoreRow? {
      StoreTouches(s, step.call, step.row, step.job, step.hasConsumer);
    } else if step.MarkEcho? {
      MarkTouches(s, step.call, step.o, step.job);
    }
  }

  lemma CallKeepsLogs(s: State, step: CallStep)
    requires MarkingOnce(s.calls, s.jobs, s.recalledBy) && CallEnabled(s, step)
    ensures LogsKept(s, ApplyCall(s, step))
  {
    CallTouches(s, step);
    if step.MarkEcho? {
      assert IsMarking(s.calls, step.call);
      MarkEchoKeepsRecalls(s, step.call, step.o, step.job);
    }
    hide CallEnabled, ApplyCall, MarkingOnce;
  }

  lemma MarkEchoKeepsRecalls(s: State, c: nat, o: Outcome, job: nat)
    requires CallEnabled(s, MarkEcho(c, o, job)) && s.calls[c].phase.oops !in s.recalledBy
    ensures var log := ApplyCall(s, MarkEcho(c, o, job)).recalledBy;
            forall k :: k in s.recalledBy ==> k in log && log[k] == s.recalledBy[k]
  {
    hide MarkRecalled;
  }

  lemma JobTouches(s: State, step: JobStep)
    requires JobEnabled(s, step)
    ensures var s' := ApplyJob(s, step);
            && s'.accounts == s.accounts && s.sent <= s'.sent && s.acks <= s'.acks && s'.queue == s.queue
            && s'.runs == s.runs && s'.recalledBy == s.recalledBy
  {
    hide OutboundAllowed, IsRowOf, Insert, MarkFired, Marked;
  }

  lemma JobsKeepOrigins(s: State, step: JobStep)
    requires JobEnabled(s, step)
    ensures forall j :: j in s.jobs ==>
              j in ApplyJob(s, step).jobs && ApplyJob(s, step).jobs[j].origin == s.jobs[j].origin
  {
    hide OutboundAllowed, IsRowOf, Insert, MarkFired, Marked;
  }

  lemma JobKeepsLogs(s: State, step: JobStep)
    requires JobEnabled(s, step)
    ensures LogsKept(s, ApplyJob(s, step))
  {
    JobTouches(s, step);
    JobsKeepOrigins(s, step);
    hide JobEnabled, ApplyJob;
  }

  lemma ReplayKeepsLogs(s: State, step: ReplayStep)
    requires ReplayEnabled(s, step)
    ensures LogsKept(s, ApplyReplay(s, step))
  {
    hide IsUnfiredListing, MarkFired;
  }

  lemma RetentionKeepsLogs(s: State, step: RetentionStep)
    ensures LogsKept(s, ApplyRetention(s, step))
  {
    hide UpdateWhere, DeleteRows;
  }

  lemma OopsMarkedOnce(s: State)
    requires Inv(s)
    ensures MarkingOnce(s.calls, s.jobs, s.recalledBy)
  {}

  lemma StepKeepsLogs(s: State, step: Step)
    requires Inv(s) && Enabled(s, step)
    ensures LogsKept(s, Apply(s, step))
  {
    hide Inv, LogsKept, QueueEnabled, CallEnabled, JobEnabled, ReplayEnabled, RetentionEnabled, MarkingOnce;
    match step {
      case QueueStep(q) => QueueKeepsLogs(s, q);
      case CallStep(c) =>
        OopsMarkedOnce(s);
        CallKeepsLogs(s, c);
      case JobStep(j) => JobKeepsLogs(s, j);
      case ReplayStep(r) => ReplayKeepsLogs(s, r);
      case RetentionStep(t) => RetentionKeepsLogs(s, t);
    }
  }

  lemma OneStep(run: seq<State>, steps: seq<Step>, k: nat)
    requires IsRun(run, steps) && k + 1 < |run|
    ensures Inv(run[k]) && Inv(run[k + 1]) && Keeps(run[k], run[k + 1]) && LogsKept(run[k], run[k + 1])
  {
    InvHolds(run, steps, k);
    hide Inv, LogsKept, Keeps, Enabled, Apply;
    StepKeepsInv(run[k], steps[k]);
    StepKeepsLogs(run[k], steps[k]);
    KeepsInv(run[k], run[k + 1]);
  }

  lemma KeptTwice(s: State, s1: State, s2: State)
    requires LogsKept(s, s1) && LogsKept(s1, s2)
    ensures LogsKept(s, s2)
  {}

  lemma KeptAtOnce(s: State)
    ensures LogsKept(s, s)
  {}

  lemma GrowsTwice(s: State, s1: State, s2: State)
    requires Grows(s.db.born, s1.db.born) && s.db.purged <= s1.db.purged && Keeps(s1, s2)
    ensures Grows(s.db.born, s2.db.born) && s.db.purged <= s2.db.purged
  {
    hide Inv, RowsEvolve;
  }

  /** The later state keeps the logs of the earlier, every row ever inserted, and every id
      ever purged. */
  lemma {:induction false} Onward(run: seq<State>, steps: seq<Step>, i: nat, k: nat)
    requires IsRun(run, steps) && i <= k < |run|
    ensures LogsKept(run[i], run[k])
    ensures Grows(run[i].db.born, run[k].db.born) && run[i].db.purged <= run[k].db.purged
    decreases k
  {
    hide Inv, IsRun, LogsKept, Keeps;
    if i == k {
      KeptAtOnce(run[i]);
    } else {
      Onward(run, steps, i, k - 1);
      OneStep(run, steps, k - 1);
      KeptTwice(run[i], run[k - 1], run[k]);
      GrowsTwice(run[i], run[k - 1], run[k]);
    }
  }

  /** In a run, an id names the same inserted row in every state that knows it. */
  lemma SameRow(run: seq<State>, steps: seq<Step>, i: nat, k: nat, id: Uuid)
    requires IsRun(run, steps) && i < |run| && k < |run|
    requires id in run[i].db.born && id in run[k].db.born
    ensures run[i].db.born[id] == run[k].db.born[id]
  {
    if i <= k {
      Onward(run, steps, i, k);
    } else {
      Onward(run, steps, k, i);
    }
  }

  /** A row present in two states of a run was there all along, and changed only as stored
      rows may: its action at most from echoed to recalled, and never back from fired. */
  lemma {:induction false} RowsOnlyEvolve(run: seq<State>, steps: seq<Step>, i: nat, k: nat, id: Uuid)
    requires IsRun(run, steps) && i <= k < |run|
    requires id in run[i].db.table && id in run[k].db.table
    ensures MayBecome(run[i].db.table[id], run[k].db.table[id])
    decreases k
  {
    hide Inv, IsRun, Keeps, LogsKept, MayBecome, Grows;
    if i == k {
      MayBecomeItself(run[i].db.table[id]);
    } else {
      InvHolds(run, steps, i);
      OneStep(run, steps, k - 1);
      Onward(run, steps, i, k - 1);
      StillThere(run[i], run[k - 1], run[k], id);
      RowsOnlyEvolve(run, steps, i, k - 1, id);
      EvolvesTwice(run[i].db.table[id], run[k - 1], run[k], id);
    }
  }

  lemma EvolvesTwice(r: Row, s1: State, s2: State, id: Uuid)
    requires Keeps(s1, s2) && id in s1.db.table && id in s2.db.table && MayBecome(r, s1.db.table[id])
    ensures MayBecome(r, s2.db.table[id])
  {
    hide Inv, MayBecome;
    MayBecomeOn(r, s1.db.table[id], s2.db.table[id]);
  }

  /** An id does not leave the table and come back. */
  lemma StillThere(s: State, s1: State, s2: State, id: Uuid)
    requires Inv(s) && Inv(s1) && Inv(s2) && Grows(s.db.born, s1.db.born) && Keeps(s1, s2)
    requires id in s.db.table && id in s2.db.table
    ensures id in s1.db.table
  {
    var db, db1, db2 := s.db, s1.db, s2.db;
    assert Logged(db) && Logged(db1) && Logged(db2) && db1.purged <= db2.purged;
    hide Inv, Keeps;
    assert id in db1.born;
  }

  lemma LogOf(s: State)
    requires Inv(s)
    ensures Logged(s.db) && LinksSound(s.db.table)
  {
    hide Logged, LinksSound;
  }

  /** A row there now and inserted by then was there then. */
  lemma WasThere(run: seq<State>, steps: seq<Step>, i: nat, k: nat, id: Uuid)
    requires IsRun(run, steps) && i <= k < |run| && id in run[k].db.table && id in run[i].db.born
    ensures id in run[i].db.table && MayBecome(run[i].db.table[id], run[k].db.table[id])
  {
    InvHolds(run, steps, i);
    InvHolds(run, steps, k);
    Onward(run, steps, i, k);
    hide IsRun, Inv, MayBecome, LogsKept, Grows;
    LogOf(run[i]);
    LogOf(run[k]);
    RowsOnlyEvolve(run, steps, i, k, id);
  }

  // ----- At-least-once delivery -----

  /** Every message the webhook accepted is queued, in flight, acknowledged or in the
      dead-letter queue; and one that is acknowledged was stored under its key, as an
      inbound row unless an outbound row took the key. */
  lemma AcceptedIsKeptAndAckedIsStored(run: seq<State>, steps: seq<Step>, n: nat, e: nat)
    requires IsRun(run, steps) && n < |run|
    ensures var q := run[n].queue;
            e in q.accepted <==> e in q.waiting || e in q.inFlight || e in q.acked || e in q.dead
    ensures var q, born := run[n].queue, run[n].db.born;
            e in q.acked ==>
              && e in q.accepted
              && (exists id :: id in born && HasKey(born[id], q.accepted[e].account, q.accepted[e].platformId))
              && (OutboundFree(born, q.accepted[e]) ==> exists id :: IsStoredFor(born, id, q.accepted[e]))
  {
    InvHolds(run, steps, n);
    hide DbInv, RowsOwned, FiredAcked, CallsSound, JobsSound, OneJobPerRow, MarkingOnce, OutgoingSound, SentSound;
    hide RecallsSound, RecallsBacked, RunsSound, SingleFlight, DeliveriesSound;
    var q, born := run[n].queue, run[n].db.born;
    assert NothingLost(q);
    if e in q.acked {
      var id :| id in born && HasKey(born[id], q.accepted[e].account, q.accepted[e].platformId);
      assert OutboundFree(born, q.accepted[e]) ==> IsStoredFor(born, id, q.accepted[e]);
    }
  }

  /** No outbound message was given this inbound message's platform id. */
  ghost predicate OutboundFree(born: Table, m: Msg) {
    forall id :: id in born && HasKey(born[id], m.account, m.platformId) ==> born[id].direction == Inbound
  }

  ghost predicate IsStoredFor(born: Table, id: Uuid, m: Msg) {
    id in born && HasKey(born[id], m.account, m.platformId) && born[id].direction == Inbound
  }

  /** Under any redeliveries and interleavings at most one row has a given key; and of two
      rows ever inserted under one key, one has been purged. */
  lemma OneRowPerKey(run: seq<State>, steps: seq<Step>, n: nat, id: Uuid, id': Uuid)
    requires IsRun(run, steps) && n < |run|
    ensures var t := run[n].db.table; id in t && id' in t && SameKey(t[id], t[id']) ==> id == id'
    ensures var db := run[n].db;
            id in db.born && id' in db.born && SameKey(db.born[id], db.born[id']) && id != id' ==>
              id in db.purged || id' in db.purged
  {
    InvHolds(run, steps, n);
    hide RowsOwned, FiredAcked, CallsSound, JobsSound, OneJobPerRow, MarkingOnce, OutgoingSound, SentSound;
    hide RecallsSound, RecallsBacked, RunsSound, SingleFlight, NothingLost, DeliveriesSound, AckedStored;
    var db := run[n].db;
    if id in db.table && id' in db.table && SameKey(db.born[id], db.born[id']) {
      assert MayBecome(db.born[id], db.table[id]) && MayBecome(db.born[id'], db.table[id']);
      assert SameKey(db.table[id], db.table[id']);
    }
  }

  /** A redelivery starts no job: two different jobs ever started belong to different rows,
      and if those rows share a key, one of them was purged before. */
  lemma OneJobPerMessage(run: seq<State>, steps: seq<Step>, n: nat, j: nat, j': nat)
    requires IsRun(run, steps) && n < |run|
    requires j in run[n].jobs && j' in run[n].jobs && j != j'
    ensures var db, o, o' := run[n].db, run[n].jobs[j].origin, run[n].jobs[j'].origin;
            && o != o' && o in db.born && o' in db.born
            && (SameKey(db.born[o], db.born[o']) ==> o in db.purged || o' in db.purged)
  {
    InvHolds(run, steps, n);
    OneRowPerKey(run, steps, n, run[n].jobs[j].origin, run[n].jobs[j'].origin);
    hide DbInv, RowsOwned, FiredAcked, CallsSound, MarkingOnce, OutgoingSound, SentSound, SameKey;
    hide RecallsSound, RecallsBacked, RunsSound, SingleFlight, NothingLost, DeliveriesSound, AckedStored;
    assert JobSound(run[n].jobs[j], run[n].accounts, run[n].db.born, run[n].acks);
    assert JobSound(run[n].jobs[j'], run[n].accounts, run[n].db.born, run[n].acks);
  }

  // ----- Recall safety -----

  /** No message whose forward is ever attempted is ever recalled, before or after. */
  lemma ForwardedIsNeverRecalled(run: seq<State>, steps: seq<Step>, i: nat, k: nat, id: Uuid)
    requires IsRun(run, steps) && i < |run| && k < |run|
    requires id in run[i].sent && id in run[k].db.table
    ensures run[k].db.table[id].action != Recalled
    ensures run[k].db.table[id].action in {Execute, Routed}
  {
    InvHolds(run, steps, i);
    InvHolds(run, steps, k);
    hide RowsOwned, FiredAcked, CallsSound, JobsSound, OneJobPerRow, MarkingOnce, OutgoingSound, KeysUnique, LinksSound;
    hide RecallsSound, RecallsBacked, RunsSound, SingleFlight, NothingLost, DeliveriesSound, AckedStored;
    assert IsForwardable(run[i].db.born, id);
    SameRow(run, steps, i, k, id);
    assert MayBecome(run[k].db.born[id], run[k].db.table[id]);
  }

  /** A message is recalled only by a stored OOPS of the same account and sender; and an OOPS
      that has recalled one message never recalls another. */
  lemma RecalledByItsSender(run: seq<State>, steps: seq<Step>, n: nat, id: Uuid)
    requires IsRun(run, steps) && n < |run| && id in run[n].db.table && id in run[n].db.born
    requires run[n].db.table[id].action == Recalled && run[n].db.born[id].action == EchoBack
    ensures exists oops ::
              && oops in run[n].db.born && run[n].db.born[oops].action == Recalled
              && run[n].db.born[oops].account == run[n].db.born[id].account
              && run[n].db.born[oops].senderEndpoint == run[n].db.born[id].senderEndpoint
              && forall k :: n <= k < |run| ==> IsRecalledBy(run[k].recalledBy, oops, id)
  {
    InvHolds(run, steps, n);
    hide RowsOwned, FiredAcked, CallsSound, JobsSound, OneJobPerRow, MarkingOnce, OutgoingSound, KeysUnique, LinksSound;
    hide RunsSound, SingleFlight, NothingLost, DeliveriesSound, AckedStored, SentSound;
    var oops :| IsRecalledBy(run[n].recalledBy, oops, id);
    hide Inv, Logged, RecallsBacked, IsRun;
    forall k | n <= k < |run| ensures IsRecalledBy(run[k].recalledBy, oops, id) {
      Onward(run, steps, n, k);
    }
  }

  // ----- Fired means acknowledged -----

  /** A step in which the consumer answered a delivery of this message with a 2xx. */
  ghost predicate IsAckOf(s: State, step: Step, id: Uuid) {
    match step
    case JobStep(Attempt(j, ok)) => ok && j in s.jobs && s.jobs[j].origin == id
    case ReplayStep(Send(r, ok)) =>
      && ok && r in s.runs && s.runs[r].phase.Sending? && s.runs[r].phase.next < |s.runs[r].phase.rows|
      && s.runs[r].phase.rows[s.runs[r].phase.next].id == id
    case _ => false
  }

  lemma JobAcks(s: State, step: JobStep, id: Uuid)
    requires JobEnabled(s, step) && id in ApplyJob(s, step).acks && id !in s.acks
    ensures IsAckOf(s, JobStep(step), id)
  {
    hide OutboundAllowed, IsRowOf, Insert, MarkFired;
  }

  lemma ReplayAcks(s: State, step: ReplayStep, id: Uuid)
    requires ReplayEnabled(s, step) && id in ApplyReplay(s, step).acks && id !in s.acks
    ensures IsAckOf(s, ReplayStep(step), id)
  {
    hide IsUnfiredListing, MarkFired;
  }

  lemma OthersDoNotAck(s: State, step: Step)
    requires Enabled(s, step) && (step.QueueStep? || step.CallStep? || step.RetentionStep?)
    ensures Apply(s, step).acks == s.acks
  {
    hide QueueEnabled, CallEnabled, RetentionEnabled, ApplyCall, ApplyRetention;
    match step {
      case CallStep(c) => CallTouches(s, c);
      case RetentionStep(t) => RetentionDoesNotAck(s, t);
      case _ =>
    }
  }

  lemma RetentionDoesNotAck(s: State, step: RetentionStep)
    ensures ApplyRetention(s, step).acks == s.acks
  {
    hide UpdateWhere, DeleteRows;
  }

  lemma StepAcks(s: State, step: Step, id: Uuid)
    requires Enabled(s, step) && id in Apply(s, step).acks && id !in s.acks
    ensures IsAckOf(s, step, id)
  {
    hide QueueEnabled, CallEnabled, JobEnabled, ReplayEnabled, RetentionEnabled;
    hide ApplyQueue, ApplyCall, ApplyJob, ApplyReplay, ApplyRetention, IsAckOf;
    match step {
      case JobStep(j) => JobAcks(s, j, id);
      case ReplayStep(r) => ReplayAcks(s, r, id);
      case _ =>
        OthersDoNotAck(s, step);
        assert false;
    }
  }

  lemma {:induction false} AcksAreReal(run: seq<State>, steps: seq<Step>, n: nat, id: Uuid)
    requires IsRun(run, steps) && n < |run| && id in run[n].acks
    ensures exists i :: 0 <= i < n && IsAckOf(run[i], steps[i], id)
  {
    if n > 0 {
      if id in run[n - 1].acks {
        AcksAreReal(run, steps, n - 1, id);
      } else {
        StepAcks(run[n - 1], steps[n - 1], id);
      }
    }
  }

  /** `workflow_fired` is true only if some earlier delivery of that very message, live or
      replayed, was acknowledged. */
  lemma FiredMeansAcknowledged(run: seq<State>, steps: seq<Step>, n: nat, id: Uuid)
    requires IsRun(run, steps) && n < |run| && id in run[n].db.table && run[n].db.table[id].fired
    ensures exists i :: 0 <= i < n && IsAckOf(run[i], steps[i], id)
  {
    InvHolds(run, steps, n);
    assert FiredAcked(run[n].db.table, run[n].acks);
    AcksAreReal(run, steps, n, id);
  }

  /** Whatever its filters, a listing that is not cut off by its limit holds exactly the
      tenant's unfired routed or executed inbound rows whose channel has a consumer and that
      pass the filters: the joins lose none. */
  lemma UnfiredAreExactlyTheListed(run: seq<State>, steps: seq<Step>, n: nat, id: Uuid, tenant: Uuid,
                                   channels: map<Uuid, Channel>, since: int, channel: Option<Uuid>, limit: nat,
                                   rows: seq<Row>)
    requires IsRun(run, steps) && n < |run| && id in run[n].db.table
    requires IsUnfiredListing(run[n].db.table, Candidates(tenant, channels, run[n].accounts, since, channel),
                              limit, rows)
    requires |rows| < limit
    ensures var r := run[n].db.table[id];
            r in rows <==>
            && r.tenant == tenant && r.direction == Inbound && !r.fired && r.action in {Routed, Execute}
            && r.channel.Some? && r.channel.value in channels
            && channels[r.channel.value].workflowUrl !in {None, Some("")}
            && r.receivedAt >= since && (channel.Some? ==> r.channel == channel)
  {
    InvHolds(run, steps, n);
    RowHasAccount(run[n], id);
    hide Inv, IsRun;
    ListedIffCandidate(run[n].db.table, Candidates(tenant, channels, run[n].accounts, since, channel), limit, rows, id);
  }

  lemma ListedIffCandidate(t: Table, p: Row -> bool, limit: nat, rows: seq<Row>, id: Uuid)
    requires IsUnfiredListing(t, p, limit, rows) && |rows| < limit && id in t
    ensures t[id] in rows <==> p(t[id])
  {}

  lemma RowHasAccount(s: State, id: Uuid)
    requires Inv(s) && id in s.db.table
    ensures s.db.table[id].account.Some? && s.db.table[id].account.value in s.accounts
  {
    hide KeysUnique, LinksSound;
    assert MayBecome(s.db.born[id], s.db.table[id]);
  }

  /** A message decided for the consumer and never acknowledged is in every listing that is
      not cut off, until it is purged: whatever was attempted, lost, recalled, redacted or
      marked meanwhile. */
  lemma UnacknowledgedIsListed(run: seq<State>, steps: seq<Step>, n: nat, id: Uuid, channels: map<Uuid, Channel>,
                               since: int, channel: Option<Uuid>, limit: nat, rows: seq<Row>)
    requires IsRun(run, steps) && n < |run| && IsForwardable(run[n].db.born, id)
    requires id !in run[n].acks && id !in run[n].db.purged
    requires var b := run[n].db.born[id];
             && b.channel.Some? && b.channel.value in channels
             && channels[b.channel.value].workflowUrl !in {None, Some("")}
             && b.receivedAt >= since && (channel.Some? ==> b.channel == channel)
             && IsUnfiredListing(run[n].db.table, Candidates(b.tenant, channels, run[n].accounts, since, channel),
                                 limit, rows)
    requires |rows| < limit
    ensures id in run[n].db.table && run[n].db.table[id] in rows
  {
    InvHolds(run, steps, n);
    hide IsRun;
    var b := run[n].db.born[id];
    StillForwardable(run[n], id);
    hide Inv, IsUnfiredListing, Candidates;
    UnfiredAreExactlyTheListed(run, steps, n, id, b.tenant, channels, since, channel, limit, rows);
  }

  lemma StillForwardable(s: State, id: Uuid)
    requires Inv(s) && IsForwardable(s.db.born, id) && id !in s.acks && id !in s.db.purged
    ensures id in s.db.table
    ensures var b, r := s.db.born[id], s.db.table[id];
            && r.tenant == b.tenant && r.channel == b.channel && r.receivedAt == b.receivedAt
            && r.direction == b.direction && r.action == b.action && !r.fired
  {
    hide RowsOwned, CallsSound, JobsSound, OneJobPerRow, MarkingOnce, OutgoingSound, KeysUnique, LinksSound;
    hide RecallsSound, RecallsBacked, RunsSound, SingleFlight, NothingLost, DeliveriesSound, AckedStored, SentSound;
    assert id in s.db.table && MayBecome(s.db.born[id], s.db.table[id]);
  }

  // ----- What a replay sends -----

  /** The payload of a stored row is that of the row inserted, or of its redaction if it has
      been redacted. */
  lemma PayloadStays(c: Codec, r: Row, r': Row, accountType: string)
    requires MayBecome(r, r')
    ensures r'.raw != RedactedPayload ==> ReplayPayload(c, r', accountType) == ReplayPayload(c, r, accountType)
    ensures r.raw != RedactedPayload && r'.raw == RedactedPayload ==>
              ReplayPayload(c, r', accountType) == ReplayPayload(c, Redact(r), accountType)
  {}

  /** In every state, and for every row a replay has listed, the payload is that of the row
      as it was inserted; or, once the row has been redacted, that of its redaction, with
      nothing left of its text, sender, attachments and place. */
  lemma ReplaysSendWhatWasStored(run: seq<State>, steps: seq<Step>, n: nat, r: nat, i: nat, c: Codec,
                                 accountType: string)
    requires IsRun(run, steps) && n < |run| && r in run[n].runs && !run[n].runs[r].phase.Listing?
    requires i < |run[n].runs[r].phase.rows|
    ensures var row, born := run[n].runs[r].phase.rows[i], run[n].db.born;
            && row.id in born
            && (row.raw != RedactedPayload ==>
                  ReplayPayload(c, row, accountType) == ReplayPayload(c, born[row.id], accountType))
            && (row.raw == RedactedPayload && born[row.id].raw != RedactedPayload ==>
                  var p := ReplayPayload(c, row, accountType);
                  && p == ReplayPayload(c, Redact(born[row.id]), accountType)
                  && p.text == "" && p.senderEndpoint == "" && p.attachments == None && p.location == None)
  {
    InvHolds(run, steps, n);
    hide IsRun;
    RunIsSound(run[n], r);
    hide Inv, MayBecome, ReplayPayload, Redact;
    var row := run[n].runs[r].phase.rows[i];
    PayloadStays(c, run[n].db.born[row.id], row, accountType);
    RedactedPayloadIsBare(c, run[n].db.born[row.id], accountType);
  }

  /** So what a replay sends for a message is what its live forward sent, if its time could
      be read, its contact is not the all-zero id, and it was not redacted before the listing. */
  lemma ReplaysSendWhatWasForwarded(run: seq<State>, steps: seq<Step>, n: nat, r: nat, i: nat, c: Codec, account: Uuid,
                                    acct: Account, channel: Option<Uuid>, m: Message, doc: Doc, action: Action,
                                    stored: int, live: int)
    requires IsRun(run, steps) && n < |run| && r in run[n].runs && !run[n].runs[r].phase.Listing?
    requires i < |run[n].runs[r].phase.rows| && run[n].runs[r].phase.rows[i].raw != RedactedPayload
    requires var id := run[n].runs[r].phase.rows[i].id;
             id in run[n].db.born
             && run[n].db.born[id] == InboundRow(c, account, acct.tenant, channel, m, doc, action, id, stored)
    requires Faithful(c) && doc.contactId != Some(NIL) && c.parseTime(m.receivedAt).Some?
    ensures var row := run[n].runs[r].phase.rows[i];
            ReplayPayload(c, row, acct.type_) == LivePayload(c, account, acct, channel, m, doc, row.id, live)
  {
    var id := run[n].runs[r].phase.rows[i].id;
    hide IsRun, Faithful, InboundRow, ReplayPayload, LivePayload;
    ReplaysSendWhatWasStored(run, steps, n, r, i, c, acct.type_);
    ReplaySendsTheSame(c, account, acct, channel, m, doc, action, id, stored, live);
  }

  // ----- Replay -----

  /** In every state at most one non-dry run of a tenant is active, and a tenant's slot is
      taken exactly while one is. */
  lemma OneActiveRunPerTenant(run: seq<State>, steps: seq<Step>, n: nat, tenant: Uuid)
    requires IsRun(run, steps) && n < |run|
    ensures tenant in run[n].slots <==> exists r :: HeldBy(run[n].runs, r, tenant)
    ensures forall r, r' :: HeldBy(run[n].runs, r, tenant) && HeldBy(run[n].runs, r', tenant) ==> r == r'
  {
    InvHolds(run, steps, n);
    assert SingleFlight(run[n].runs, run[n].slots);
  }

  /** Two runs that were ever active together never attempt a common message. */
  lemma OverlappingRunsShareNothing(run: seq<State>, steps: seq<Step>, i: nat, k: nat, r: nat, r': nat)
    requires IsRun(run, steps) && i <= k < |run| && r != r'
    requires r in run[i].runs && r' in run[i].runs && Active(run[i].runs[r]) && Active(run[i].runs[r'])
    ensures r in run[k].runs && r' in run[k].runs
    ensures forall a, b :: a in Attempted(run[k].runs[r]) && b in Attempted(run[k].runs[r']) ==> a.id != b.id
  {
    OneActiveRunPerTenant(run, steps, i, run[i].runs[r].tenant);
    assert HeldBy(run[i].runs, r, run[i].runs[r].tenant);
    assert run[i].runs[r].tenant != run[i].runs[r'].tenant by {
      assert !HeldBy(run[i].runs, r', run[i].runs[r].tenant);
    }
    Onward(run, steps, i, k);
    InvHolds(run, steps, k);
    RunIsSound(run[k], r);
    RunIsSound(run[k], r');
    hide Inv, LogsKept, IsRun, Grows;
    assert RunKept(run[i].runs[r], run[k].runs[r]) && RunKept(run[i].runs[r'], run[k].runs[r']) by {
      KeptRuns(run[i], run[k]);
    }
    AttemptedAreOfTenant(run[k].runs[r], run[k].db.born, run[k].acks);
    AttemptedAreOfTenant(run[k].runs[r'], run[k].db.born, run[k].acks);
  }

  lemma KeptRuns(s: State, s': State)
    requires LogsKept(s, s')
    ensures forall r :: r in s.runs ==> r in s'.runs && RunKept(s.runs[r], s'.runs[r])
  {}

  lemma AttemptedAreOfTenant(run: ReplayRun, born: Table, acks: set<Uuid>)
    requires RunSound(run, born, acks)
    ensures forall a :: a in Attempted(run) ==> a.id in born && born[a.id].tenant == run.tenant
  {}

  lemma ListedIsRecorded(s: State, step: ReplayStep)
    requires step.List? && ReplayEnabled(s, step)
    ensures var runs := ApplyReplay(s, step).runs;
            step.run in runs && !runs[step.run].phase.Listing? && runs[step.run].phase.rows == step.rows
  {
    hide IsUnfiredListing;
  }

  lemma JobsAreBorn(s: State, j: nat)
    requires Inv(s) && j in s.jobs
    ensures s.jobs[j].origin in s.db.born && KeyedById(s.db.table)
  {
    hide RowsOwned, FiredAcked, CallsSound, OneJobPerRow, MarkingOnce, OutgoingSound, KeysUnique, LinksSound;
    hide RecallsSound, RecallsBacked, RunsSound, SingleFlight, NothingLost, DeliveriesSound, AckedStored, SentSound;
    assert JobSound(s.jobs[j], s.accounts, s.db.born, s.acks);
  }

  lemma MarkTakesEffect(s: State, j: nat, o: Outcome)
    requires JobEnabled(s, MarkForward(j, o)) && o != FailsBefore && KeyedById(s.db.table)
    requires s.jobs[j].origin in s.db.table
    ensures var id, t := s.jobs[j].origin, ApplyJob(s, MarkForward(j, o)).db.table; id in t && t[id].fired
  {}

  /** Once the mark of a live delivery has taken effect, answered or not, the message is fired
      for as long as it is there. */
  lemma LiveMarkLasts(run: seq<State>, steps: seq<Step>, i: nat, k: nat, j: nat, o: Outcome)
    requires IsRun(run, steps) && i < k < |run| && steps[i] == JobStep(MarkForward(j, o)) && o != FailsBefore
    requires j in run[i].jobs && run[i].jobs[j].origin in run[k].db.table
    ensures run[k].db.table[run[i].jobs[j].origin].fired
  {
    var id := run[i].jobs[j].origin;
    assert Enabled(run[i], steps[i]) && run[i + 1] == Apply(run[i], steps[i]);
    InvHolds(run, steps, i);
    LogOf(run[i]);
    JobsAreBorn(run[i], j);
    hide Inv, IsRun, Logged, LinksSound;
    WasThere(run, steps, i, k, id);
    MarkTakesEffect(run[i], j, o);
    assert id in run[i + 1].db.table && run[i + 1].db.table[id].fired;
    RowsOnlyEvolve(run, steps, i + 1, k, id);
  }

  /** A message marked fired before a run lists is never attempted by it. */
  lemma FiredIsNeverReplayed(run: seq<State>, steps: seq<Step>, i: nat, k: nat, n: nat, r: nat, id: Uuid)
    requires IsRun(run, steps) && i <= k < n < |run|
    requires id in run[i].db.table && run[i].db.table[id].fired
    requires steps[k].ReplayStep? && steps[k].replayStep.List? && steps[k].replayStep.run == r
    ensures r in run[n].runs && forall a :: a in Attempted(run[n].runs[r]) ==> a.id != id
  {
    var list := steps[k].replayStep;
    InvHolds(run, steps, k);
    assert Enabled(run[k], steps[k]) && run[k + 1] == Apply(run[k], steps[k]);
    ListedRowsAreSound(run[k], list);
    assert forall row :: row in list.rows ==> row.id != id by {
      if id in run[k].db.table {
        RowsOnlyEvolve(run, steps, i, k, id);
      }
    }
    ListedIsRecorded(run[k], list);
    hide Inv, IsUnfiredListing, LogsKept, ReplayEnabled, ApplyReplay;
    Onward(run, steps, k + 1, n);
    KeptRuns(run[k + 1], run[n]);
    hide IsRun, Apply, Enabled;
    assert run[n].runs[r].phase.rows == list.rows;
  }

  /** A run attempts its candidates in order of time, none twice; a run that is over has
      attempted all of them, and a dry run none. */
  lemma RunsAttemptInOrder(run: seq<State>, steps: seq<Step>, n: nat, r: nat)
    requires IsRun(run, steps) && n < |run| && r in run[n].runs && !run[n].runs[r].phase.Listing?
    ensures var attempted, rows := Attempted(run[n].runs[r]), run[n].runs[r].phase.rows;
            && attempted <= rows
            && (forall i, j :: 0 <= i < j < |rows| ==>
                  rows[i].id != rows[j].id && rows[i].receivedAt <= rows[j].receivedAt)
            && (run[n].runs[r].phase.Ended? && !run[n].runs[r].dry ==> attempted == rows)
            && (run[n].runs[r].dry ==> attempted == [])
  {
    InvHolds(run, steps, n);
    RunIsSound(run[n], r);
    hide Inv;
  }

  // ----- Links and purges -----

  /** In every state every reply link points to an existing row of the same tenant; so a
      purge that clears first is never refused, whatever came before it. */
  lemma LinksAlwaysSound(run: seq<State>, steps: seq<Step>, n: nat, tenant: Uuid, cutoff: int)
    requires IsRun(run, steps) && n < |run|
    ensures LinksSound(run[n].db.table)
    ensures RetentionEnabled(ApplyRetention(run[n], ClearLinks(tenant, cutoff)), PurgeRows(tenant, cutoff))
    ensures var s' := ApplyRetention(ApplyRetention(run[n], ClearLinks(tenant, cutoff)), PurgeRows(tenant, cutoff));
            s'.db.table == AfterPurge(run[n].db.table, tenant, cutoff)
  {
    InvHolds(run, steps, n);
    PurgeSteps(run[n].db.table, tenant, cutoff);
  }
}
