/** Replay, replies, erasure and purge, handled alone, are sequences of the lifecycle's steps;
    so what holds over every interleaving of steps holds of them. */
module ServiceRefinement {
  import opened Wrappers
  import opened Policy
  import opened Messages
  import opened Store
  import opened Retention
  import opened Canonical
  import opened Forwarding
  import Replay
  import OutboundApi
  import opened Lifecycle

  // ----- Purge and erasure -----

  /** A purge is its two statements. */
  lemma PurgeIsSteps(s: State, tenant: Uuid, cutoff: int)
    requires LinksSound(s.db.table)
    ensures exists s' ::
              && Leads(s, [RetentionStep(ClearLinks(tenant, cutoff))] + [RetentionStep(PurgeRows(tenant, cutoff))], s')
              && s'.db.table == AfterPurge(s.db.table, tenant, cutoff)
  {
    PurgeSteps(s.db.table, tenant, cutoff);
    hide AfterPurge, OlderThan, RepliesToOlder, DeleteAllowed;
    var clear, purge := ClearLinks(tenant, cutoff), PurgeRows(tenant, cutoff);
    var s1 := ApplyRetention(s, clear);
    var s' := ApplyRetention(s1, purge);
    LeadsOn(s1, RetentionStep(purge), [], s');
    LeadsOn(s, RetentionStep(clear), [RetentionStep(purge)], s');
  }

  /** A purge that fails has done nothing, cleared the links, or finished: each is reached. */
  lemma StoppedPurgeIsSteps(s: State, tenant: Uuid, cutoff: int, t': Table)
    requires LinksSound(s.db.table)
    requires t' in {s.db.table, LinksCleared(s.db.table, tenant, cutoff), AfterPurge(s.db.table, tenant, cutoff)}
    ensures exists steps, s' :: Leads(s, steps, s') && s'.db.table == t'
  {
    hide AfterPurge, OlderThan, RepliesToOlder, DeleteAllowed, LinksSound, Leads, UpdateWhere;
    var clear := ClearLinks(tenant, cutoff);
    var s1 := ApplyRetention(s, clear);
    PurgeIsSteps(s, tenant, cutoff);
    NoSteps(s);
    NoSteps(s1);
    LeadsOn(s, RetentionStep(clear), [], s1);
    assert s1.db.table == LinksCleared(s.db.table, tenant, cutoff);
    hide LinksCleared;
    if t' == s.db.table {
      assert Leads(s, [], s);
    } else if t' == LinksCleared(s.db.table, tenant, cutoff) {
      assert Leads(s, [RetentionStep(clear)] + [], s1);
    }
  }

  /** Erasing a contact: each endpoint redacted, then the contact's messages redacted and
      detached. */
  function EraseSteps(tenant: Uuid, contact: Uuid, es: seq<string>): seq<Step> {
    if es == [] then [RetentionStep(RedactContact(tenant, contact))] + [RetentionStep(DetachContact(tenant, contact))]
    else [RetentionStep(RedactEndpoint(tenant, es[0]))] + EraseSteps(tenant, contact, es[1..])
  }

  lemma ErasureIsSteps(s: State, tenant: Uuid, contact: Uuid, es: seq<string>)
    ensures exists s' ::
              Leads(s, EraseSteps(tenant, contact, es), s') && s'.db.table == Erased(s.db.table, tenant, contact, es)
  {
    var s' := RedactionsAreSteps(s, s.db.table, tenant, contact, [], es);
    assert [] + es == es;
  }

  /** With `done` redacted already, the rest of the erasure. */
  lemma {:induction false} RedactionsAreSteps(s: State, t: Table, tenant: Uuid, contact: Uuid, done: seq<string>,
                                              es: seq<string>)
    returns (s': State)
    requires s.db.table == RedactAll(t, tenant, done)
    ensures Leads(s, EraseSteps(tenant, contact, es), s') && s'.db.table == Erased(t, tenant, contact, done + es)
    decreases |es|
  {
    hide RedactAll, Erased, Leads;
    if es == [] {
      assert done + es == done;
      s' := ContactIsSteps(s, t, tenant, contact, done);
    } else {
      var step := RedactEndpoint(tenant, es[0]);
      var s1 := ApplyRetention(s, step);
      RedactOneMore(t, tenant, done, es[0]);
      s' := RedactionsAreSteps(s1, t, tenant, contact, done + [es[0]], es[1..]);
      assert done + [es[0]] + es[1..] == done + es;
      LeadsOn(s, RetentionStep(step), EraseSteps(tenant, contact, es[1..]), s');
    }
  }

  lemma ContactIsSteps(s: State, t: Table, tenant: Uuid, contact: Uuid, es: seq<string>) returns (s': State)
    requires s.db.table == RedactAll(t, tenant, es)
    ensures Leads(s, EraseSteps(tenant, contact, []), s') && s'.db.table == Erased(t, tenant, contact, es)
  {
    ErasureSteps(t, tenant, contact, es);
    hide RedactAll, Erased, OfContact, UpdateWhere;
    var redact, detach := RedactContact(tenant, contact), DetachContact(tenant, contact);
    var s1 := ApplyRetention(s, redact);
    s' := ApplyRetention(s1, detach);
    LeadsOn(s1, RetentionStep(detach), [], s');
    LeadsOn(s, RetentionStep(redact), [RetentionStep(detach)], s');
  }

  /** Redacting some endpoints, one after the other. */
  lemma {:induction false} EndpointsAreSteps(s: State, t: Table, tenant: Uuid, done: seq<string>, es: seq<string>)
    returns (steps: seq<Step>, s': State)
    requires s.db.table == RedactAll(t, tenant, done)
    ensures Leads(s, steps, s') && s'.db.table == RedactAll(t, tenant, done + es)
    decreases |es|
  {
    hide RedactAll, Leads;
    NoSteps(s);
    if es == [] {
      assert done + es == done;
      steps, s' := [], s;
    } else {
      var step := RedactEndpoint(tenant, es[0]);
      var s1 := ApplyRetention(s, step);
      RedactOneMore(t, tenant, done, es[0]);
      var rest;
      rest, s' := EndpointsAreSteps(s1, t, tenant, done + [es[0]], es[1..]);
      assert done + [es[0]] + es[1..] == done + es;
      LeadsOn(s, RetentionStep(step), rest, s');
      steps := [RetentionStep(step)] + rest;
    }
  }

  lemma RedactNone(t: Table, tenant: Uuid)
    ensures RedactAll(t, tenant, []) == t
  {}

  /** Wherever an erasure stops, the statements made until then lead there. */
  lemma StoppedErasureIsSteps(s: State, tenant: Uuid, contact: Uuid, es: seq<string>, t': Table)
    requires StoppedErasing(s.db.table, t', tenant, contact, es)
    ensures exists steps, s' :: Leads(s, steps, s') && s'.db.table == t'
  {
    hide RedactAll, Erased, UpdateWhere, Leads, StoppedErasing;
    var t := s.db.table;
    RedactNone(t, tenant);
    if SomeRedacted(t, t', tenant, es) {
      var done :| done <= es && t' == RedactAll(t, tenant, done);
      var steps, s' := EndpointsAreSteps(s, t, tenant, [], done);
      assert [] + done == done;
    } else if t' == Erased(t, tenant, contact, es) {
      ErasureIsSteps(s, tenant, contact, es);
    } else {
      OnlyRedactedIsLeft(t, t', tenant, contact, es);
      var steps, s1 := EndpointsAreSteps(s, t, tenant, [], es);
      assert [] + es == es;
      var redact := RedactContact(tenant, contact);
      var s' := ApplyRetention(s1, redact);
      NoSteps(s');
      LeadsOn(s1, RetentionStep(redact), [], s');
      LeadsThrough(s, steps, s1, RetentionStep(redact), s');
    }
  }

  lemma OnlyRedactedIsLeft(t: Table, t': Table, tenant: Uuid, contact: Uuid, es: seq<string>)
    requires StoppedErasing(t, t', tenant, contact, es) && !SomeRedacted(t, t', tenant, es)
    requires t' != Erased(t, tenant, contact, es)
    ensures t' == UpdateWhere(RedactAll(t, tenant, es), OfContact(tenant, contact), Redact)
  {}

  // ----- Replies through the API -----

  /** The last step of a reply: recorded, or given up. */
  lemma ReplyEnds(s: State, out: nat, row: Row, t': Table) returns (last: JobStep)
    requires out in s.outgoing && IsRowOf(s, row, s.outgoing[out])
    requires t' == s.db.table || (OutboundAllowed(s.db.table, row) && t' == s.db.table[row.id := row])
    ensures JobEnabled(s, last) && ApplyJob(s, last).db.table == t' && ApplyJob(s, last).outgoing == s.outgoing - {out}
    ensures ApplyJob(s, last).jobs == s.jobs
  {
    hide OutboundAllowed, IsRowOf;
    last := if t' == s.db.table then DropOutbound(out) else StoreOutbound(out, row);
  }

  lemma ReplyRowFits(s: State, out: nat, id: Uuid, text: string, env: OutboundApi.Env)
    requires id in s.db.table && OutboundApi.CanBeAnswered(s.db.table[id]) && env.newId !in s.db.born
    ensures var row := OutboundApi.OutboundRow(OutboundApi.Answering(s.db.table[id], id), text, Sent, env);
            IsRowOf(s, row, Outgoing(s.db.table[id].tenant, s.db.table[id].account.value, Some(id)))
  {}

  /** A reply reads its conversation, and is recorded or not. */
  lemma ReplyIsSteps(s: State, out: nat, id: Uuid, text: string, env: OutboundApi.Env, recorded: bool, faulty: bool,
                     t': Table, sent: seq<OutboundApi.Dispatched>, sent': seq<OutboundApi.Dispatched>)
    requires id in s.db.table && OutboundApi.CanBeAnswered(s.db.table[id])
    requires out !in s.outgoing && env.newId !in s.db.born
    requires OutboundApi.SentThenRecorded(OutboundApi.Answering(s.db.table[id], id), text, Sent, env, recorded,
                                          faulty, s.db.table, t', sent, sent')
    ensures exists steps, s' :: Leads(s, steps, s') && s'.db.table == t' && s'.outgoing == s.outgoing
  {
    var row := OutboundApi.OutboundRow(OutboundApi.Answering(s.db.table[id], id), text, Sent, env);
    var read := ApiReply(out, id);
    var s1 := ApplyJob(s, read);
    ReplyRowFits(s, out, id, text, env);
    assert IsRowOf(s1, row, s1.outgoing[out]);
    hide OutboundAllowed, IsRowOf, OutboundApi.OutboundRow, Leads;
    var last := ReplyEnds(s1, out, row, t');
    var s' := ApplyJob(s1, last);
    assert s'.outgoing == s.outgoing;
    hide JobEnabled, ApplyJob;
    NoSteps(s');
    LeadsOn(s1, JobStep(last), [], s');
    LeadsOn(s, JobStep(read), [JobStep(last)], s');
  }

  /** A background reply of ingest: dispatched, and recorded or not. The job is one that a
      stored message started. */
  lemma DispatchIsSteps(s: State, job: nat, out: nat, to: string, text: string, action: Action, env: OutboundApi.Env,
                        recorded: bool, faulty: bool, t': Table, sent: seq<OutboundApi.Dispatched>,
                        sent': seq<OutboundApi.Dispatched>)
    requires job in s.jobs && s.jobs[job].Reply? && !s.jobs[job].dispatched && s.jobs[job].account in s.accounts
    requires out !in s.outgoing && env.newId !in s.db.born && action in {EchoedBack, Recalled}
    requires OutboundApi.SentThenRecorded(DestinationOf(s, s.jobs[job], to), text, action, env, recorded,
                                          faulty, s.db.table, t', sent, sent')
    ensures exists steps, s' :: Leads(s, steps, s') && s'.db.table == t' && s'.outgoing == s.outgoing
                                && s'.jobs == s.jobs[job := s.jobs[job].(dispatched := true)]
  {
    var row := OutboundApi.OutboundRow(DestinationOf(s, s.jobs[job], to), text, action, env);
    var dispatch := Dispatch(job, out);
    var s1 := ApplyJob(s, dispatch);
    assert IsRowOf(s1, row, s1.outgoing[out]);
    hide OutboundAllowed, IsRowOf, OutboundApi.OutboundRow, Leads;
    var last := ReplyEnds(s1, out, row, t');
    var s' := ApplyJob(s1, last);
    assert s'.outgoing == s.outgoing;
    assert s'.jobs == s1.jobs;
    hide JobEnabled, ApplyJob;
    NoSteps(s');
    LeadsOn(s1, JobStep(last), [], s');
    assert [JobStep(last)] + [] == [JobStep(last)];
    LeadsOn(s, JobStep(dispatch), [JobStep(last)], s');
  }

  /** Where the reply of a job goes, as `DispatchReply` is called for it. */
  function DestinationOf(s: State, job: Job, to: string): OutboundApi.Destination
    requires job.Reply? && job.account in s.accounts
  {
    OutboundApi.Destination(s.accounts[job.account].tenant, job.account, to, None, Some(job.target))
  }

  // ----- Replay -----

  ghost predicate IsSendingAt(s: State, r: nat, rows: seq<Row>, i: nat) {
    r in s.runs && !s.runs[r].dry && s.runs[r].phase == Sending(rows, i, false)
  }

  /** The consumer acknowledged this message, as one of the rows from the `i`-th on. */
  ghost predicate AckedFrom(rows: seq<Row>, acks: seq<bool>, i: nat, id: Uuid)
    requires |acks| == |rows|
  {
    exists j :: i <= j < |rows| && acks[j] && rows[j].id == id
  }

  /** `t'` is `t` with some of the messages acknowledged from the `i`-th row on marked fired. */
  ghost predicate MarkedFrom(t: Table, t': Table, rows: seq<Row>, acks: seq<bool>, i: nat)
    requires |acks| == |rows|
  {
    && t'.Keys == t.Keys
    && forall id :: id in t ==> t'[id] == t[id] || (AckedFrom(rows, acks, i, id) && t'[id] == t[id].(fired := true))
  }

  ghost predicate DistinctIds(rows: seq<Row>) {
    forall i, j :: 0 <= i < j < |rows| ==> rows[i].id != rows[j].id
  }

  /** After the attempts: the table, the acknowledgements logged, the slots, and the run. */
  ghost predicate Attempts(s: State, s': State, r: nat, rows: seq<Row>, acks: seq<bool>, i: nat, t': Table)
    requires |acks| == |rows|
  {
    && s'.db.table == t' && s'.slots == s.slots && IsSendingAt(s', r, rows, |rows|)
    && s'.runs[r].tenant == (if r in s.runs then s.runs[r].tenant else NIL)
    && forall id :: id in s'.acks <==> id in s.acks || AckedFrom(rows, acks, i, id)
  }

  /** The attempts from the `i`-th row on. */
  lemma {:induction false} RowsAreSteps(s: State, r: nat, rows: seq<Row>, acks: seq<bool>, i: nat, t': Table)
    returns (steps: seq<Step>, s': State)
    requires |acks| == |rows| && i <= |rows| && IsSendingAt(s, r, rows, i) && DistinctIds(rows)
    requires KeyedById(s.db.table) && MarkedFrom(s.db.table, t', rows, acks, i)
    ensures Leads(s, steps, s') && Attempts(s, s', r, rows, acks, i, t')
    decreases |rows| - i
  {
    hide Leads, MarkedFrom, AckedFrom, DistinctIds, KeyedById, ReplayEnabled, ApplyReplay;
    if i == |rows| {
      steps, s' := [], s;
      NothingLeft(s.db.table, t', rows, acks);
      NoSteps(s);
    } else if !acks[i] {
      SentUnacked(s, r, rows, i);
      NotAckedHere(s.db.table, t', rows, acks, i);
      var step := Send(r, false);
      steps, s' := RowsAreSteps(ApplyReplay(s, step), r, rows, acks, i + 1, t');
      LeadsOn(s, ReplayStep(step), steps, s');
      steps := [ReplayStep(step)] + steps;
    } else {
      var s2, two := AckedRowIsSteps(s, r, rows, acks, i, t');
      steps, s' := RowsAreSteps(s2, r, rows, acks, i + 1, t');
      LeadsOn(ApplyReplay(s, two.0), ReplayStep(two.1), steps, s');
      LeadsOn(s, ReplayStep(two.0), [ReplayStep(two.1)] + steps, s');
      steps := [ReplayStep(two.0)] + ([ReplayStep(two.1)] + steps);
      AckedHereOrLater(rows, acks, i);
    }
  }

  lemma NothingLeft(t: Table, t': Table, rows: seq<Row>, acks: seq<bool>)
    requires |acks| == |rows| && MarkedFrom(t, t', rows, acks, |rows|)
    ensures t' == t && forall id :: !AckedFrom(rows, acks, |rows|, id)
  {}

  lemma SentUnacked(s: State, r: nat, rows: seq<Row>, i: nat)
    requires i < |rows| && IsSendingAt(s, r, rows, i)
    ensures ReplayEnabled(s, Send(r, false))
    ensures var s1 := ApplyReplay(s, Send(r, false));
            && IsSendingAt(s1, r, rows, i + 1) && s1.slots == s.slots && s1.acks == s.acks
            && s1.runs[r].tenant == s.runs[r].tenant && s1.db == s.db
  {}

  lemma AckedHereOrLater(rows: seq<Row>, acks: seq<bool>, i: nat)
    requires |acks| == |rows| && i < |rows|
    ensures forall id :: AckedFrom(rows, acks, i, id) <==>
                         (acks[i] && rows[i].id == id) || AckedFrom(rows, acks, i + 1, id)
  {
    forall id | acks[i] && rows[i].id == id ensures AckedFrom(rows, acks, i, id) {}
  }

  lemma NotAckedHere(t: Table, t': Table, rows: seq<Row>, acks: seq<bool>, i: nat)
    requires |acks| == |rows| && i < |rows| && !acks[i] && MarkedFrom(t, t', rows, acks, i)
    ensures MarkedFrom(t, t', rows, acks, i + 1)
    ensures forall id :: AckedFrom(rows, acks, i, id) <==> AckedFrom(rows, acks, i + 1, id)
  {
    AckedHereOrLater(rows, acks, i);
  }

  /** An acknowledged attempt: sent, and marked or not as the table came out. */
  lemma AckedRowIsSteps(s: State, r: nat, rows: seq<Row>, acks: seq<bool>, i: nat, t': Table)
    returns (s2: State, two: (ReplayStep, ReplayStep))
    requires |acks| == |rows| && i < |rows| && acks[i] && IsSendingAt(s, r, rows, i) && DistinctIds(rows)
    requires KeyedById(s.db.table) && MarkedFrom(s.db.table, t', rows, acks, i)
    ensures ReplayEnabled(s, two.0) && ReplayEnabled(ApplyReplay(s, two.0), two.1)
    ensures s2 == ApplyReplay(ApplyReplay(s, two.0), two.1)
    ensures IsSendingAt(s2, r, rows, i + 1) && s2.slots == s.slots && s2.acks == s.acks + {rows[i].id}
    ensures s2.runs[r].tenant == s.runs[r].tenant
    ensures KeyedById(s2.db.table) && MarkedFrom(s2.db.table, t', rows, acks, i + 1)
  {
    var id, t := rows[i].id, s.db.table;
    assert id in t ==> id in t';
    var o := if id in t && t'[id] != t[id] then Done else FailsBefore;
    MarkOneMore(t, t', rows, acks, i);
    SentAndMarked(s, r, rows, i, o);
    hide MarkedFrom, KeyedById, DistinctIds, MarkFired, IsSendingAt;
    two := (Send(r, true), MarkSent(r, o));
    s2 := ApplyReplay(ApplyReplay(s, two.0), two.1);
  }

  lemma SentAndMarked(s: State, r: nat, rows: seq<Row>, i: nat, o: Outcome)
    requires i < |rows| && IsSendingAt(s, r, rows, i)
    ensures ReplayEnabled(s, Send(r, true)) && ReplayEnabled(ApplyReplay(s, Send(r, true)), MarkSent(r, o))
    ensures var s2 := ApplyReplay(ApplyReplay(s, Send(r, true)), MarkSent(r, o));
            && IsSendingAt(s2, r, rows, i + 1) && s2.slots == s.slots && s2.acks == s.acks + {rows[i].id}
            && s2.runs[r].tenant == s.runs[r].tenant
            && s2.db.table == if o == FailsBefore then s.db.table else MarkFired(s.db.table, rows[i].id)
  {
    hide MarkFired;
  }

  lemma MarkOneMore(t: Table, t': Table, rows: seq<Row>, acks: seq<bool>, i: nat)
    requires |acks| == |rows| && i < |rows| && acks[i] && DistinctIds(rows) && KeyedById(t)
    requires MarkedFrom(t, t', rows, acks, i)
    ensures var id := rows[i].id;
            var t1 := if id in t && t'[id] != t[id] then MarkFired(t, id) else t;
            KeyedById(t1) && MarkedFrom(t1, t', rows, acks, i + 1)
  {
    AckedHereOrLater(rows, acks, i);
  }

  /** A replay run: begun, listed, each candidate attempted and marked in turn, ended. Given what
      `Replay.Service.Run` promises, table and slots come out as it leaves them, the run has
      attempted exactly the rows it reports, and the acknowledgements logged are those of the
      rows whose payloads the consumers acknowledged. */
  lemma RunIsSteps(s: State, r: nat, tenant: Uuid, c: Codec, channels: map<Uuid, Channel>, since: int,
                   channel: Option<Uuid>, limit: nat, rows: seq<Row>, acks: seq<bool>, ok: seq<bool>,
                   res: Replay.RunResult, t': Table, answers: seq<ForwardBody>, answers': seq<ForwardBody>)
    requires r !in s.runs && tenant != NIL && tenant !in s.slots && KeyedById(s.db.table)
    requires IsUnfiredListing(s.db.table, Candidates(tenant, channels, s.accounts, since, channel), limit, rows)
    requires Replay.RunRecord(rows, acks, ok, res, s.db.table, t')
    requires forall row <- rows :: Replay.Deliverable(channels, s.accounts, row)
    requires answers' == answers + Replay.Acknowledged(c, channels, s.accounts, rows, acks)
    ensures exists steps, s', acked ::
              && Leads(s, steps, s') && s'.db.table == t' && s'.slots == s.slots
              && r in s'.runs && s'.runs[r].phase.Ended? && Attempted(s'.runs[r]) == rows
              && s'.acks == s.acks + (set row: Row <- acked :: row.id)
              && AnsweredFor(c, channels, s.accounts, acked, answers, answers')
  {
    hide IsUnfiredListing, Replay.RunRecord, Replay.Acknowledged, AnsweredFor, Replay.Chosen, Replay.Deliverable;
    hide Leads, Candidates, AckedFrom, MarkedFrom, KeyedById, DistinctIds;
    hide ReplayEnabled, ApplyReplay, IsSendingAt, Attempted, Attempts;
    ListedAreDistinct(s.db.table, Candidates(tenant, channels, s.accounts, since, channel), limit, rows);
    RecordMarks(rows, acks, ok, res, s.db.table, t');
    var begin, list := BeginRun(r, tenant, false), List(r, channels, since, channel, limit, rows);
    BegunAndListed(s, r, tenant, channels, since, channel, limit, rows);
    var s2 := ApplyReplay(ApplyReplay(s, begin), list);
    var steps, s3 := RowsAreSteps(s2, r, rows, acks, 0, t');
    AttemptsEnd(s2, s3, r, rows, acks, t');
    var s' := ApplyReplay(s3, EndRun(r));
    NoSteps(s');
    LeadsOn(s3, ReplayStep(EndRun(r)), [], s');
    LeadsThrough(s2, steps, s3, ReplayStep(EndRun(r)), s');
    WholeRun(s, ReplayStep(begin), ReplayStep(list), steps + [ReplayStep(EndRun(r))], s');
    assert s.slots + {tenant} - {tenant} == s.slots;
    ChosenAreAcked(rows, acks);
    AcknowledgedAreAnswers(c, channels, s.accounts, rows, acks, answers, answers');
    assert s'.acks == s.acks + (set row <- Replay.Chosen(rows, acks, true) :: row.id);
  }

  /** The answers grew by the payloads of `acked`, in order. */
  ghost predicate AnsweredFor(c: Codec, channels: map<Uuid, Channel>, accounts: map<Uuid, Account>, acked: seq<Row>,
                              answers: seq<ForwardBody>, answers': seq<ForwardBody>) {
    && (forall row <- acked :: Replay.Deliverable(channels, accounts, row))
    && answers' == answers + Replay.Payloads(c, channels, accounts, acked)
  }

  lemma ChosenAreAcked(rows: seq<Row>, acks: seq<bool>)
    requires |acks| == |rows|
    ensures forall id ::
              id in (set row <- Replay.Chosen(rows, acks, true) :: row.id) <==> AckedFrom(rows, acks, 0, id)
  {
    forall id | AckedFrom(rows, acks, 0, id)
      ensures id in (set row <- Replay.Chosen(rows, acks, true) :: row.id)
    {
      var i :| 0 <= i < |rows| && acks[i] && rows[i].id == id;
      assert rows[i] in Replay.Chosen(rows, acks, true);
    }
  }

  lemma AcknowledgedAreAnswers(c: Codec, channels: map<Uuid, Channel>, accounts: map<Uuid, Account>, rows: seq<Row>,
                               acks: seq<bool>, answers: seq<ForwardBody>, answers': seq<ForwardBody>)
    requires |acks| == |rows| && forall row <- rows :: Replay.Deliverable(channels, accounts, row)
    requires answers' == answers + Replay.Acknowledged(c, channels, accounts, rows, acks)
    ensures AnsweredFor(c, channels, accounts, Replay.Chosen(rows, acks, true), answers, answers')
  {
    hide Replay.Payloads, Replay.Deliverable;
  }

  /** The end of a run gives the slot back and changes nothing else. */
  lemma AttemptsEnd(s: State, s3: State, r: nat, rows: seq<Row>, acks: seq<bool>, t': Table)
    requires |acks| == |rows| && r in s.runs && Attempts(s, s3, r, rows, acks, 0, t')
    ensures ReplayEnabled(s3, EndRun(r))
    ensures var s' := ApplyReplay(s3, EndRun(r));
            && r in s'.runs && s'.runs[r].phase.Ended? && Attempted(s'.runs[r]) == rows
            && s'.db.table == t' && s'.slots == s.slots - {s.runs[r].tenant}
            && forall id :: id in s'.acks <==> id in s.acks || AckedFrom(rows, acks, 0, id)
  {
    hide ReplayEnabled, ApplyReplay, Attempted, AckedFrom, IsSendingAt;
    RunEnds(s3, r, rows);
  }

  lemma WholeRun(s: State, first: Step, second: Step, rest: seq<Step>, s': State)
    requires Enabled(s, first) && Enabled(Apply(s, first), second) && Leads(Apply(Apply(s, first), second), rest, s')
    ensures Leads(s, [first] + ([second] + rest), s')
  {
    hide Enabled, Apply, Leads;
    LeadsOn(Apply(s, first), second, rest, s');
    LeadsOn(s, first, [second] + rest, s');
  }

  lemma BegunAndListed(s: State, r: nat, tenant: Uuid, channels: map<Uuid, Channel>, since: int, channel: Option<Uuid>,
                       limit: nat, rows: seq<Row>)
    requires r !in s.runs && tenant != NIL && tenant !in s.slots
    requires IsUnfiredListing(s.db.table, Candidates(tenant, channels, s.accounts, since, channel), limit, rows)
    ensures var begin, list := BeginRun(r, tenant, false), List(r, channels, since, channel, limit, rows);
            && ReplayEnabled(s, begin) && ReplayEnabled(ApplyReplay(s, begin), list)
            && var s2 := ApplyReplay(ApplyReplay(s, begin), list);
               && IsSendingAt(s2, r, rows, 0) && r in s2.runs && s2.runs[r].tenant == tenant
               && s2.db == s.db && s2.acks == s.acks && s2.slots == s.slots + {tenant}
  {
    hide IsUnfiredListing, Candidates;
  }

  lemma RunEnds(s: State, r: nat, rows: seq<Row>)
    requires IsSendingAt(s, r, rows, |rows|)
    ensures ReplayEnabled(s, EndRun(r))
    ensures var s' := ApplyReplay(s, EndRun(r));
            && r in s'.runs && s'.runs[r].phase.Ended? && Attempted(s'.runs[r]) == rows
            && s'.db == s.db && s'.acks == s.acks && s'.slots == s.slots - {s.runs[r].tenant}
  {
    assert rows[..|rows|] == rows;
  }

  lemma {:induction false} LeadsThrough(s: State, steps: seq<Step>, s1: State, step: Step, s': State)
    requires Leads(s, steps, s1) && Leads(s1, [step] + [], s')
    ensures Leads(s, steps + [step], s')
    decreases |steps|
  {
    if steps == [] {
      assert steps + [step] == [step] + [];
    } else {
      LeadsThrough(Apply(s, steps[0]), steps[1..], s1, step, s');
      LeadsOn(s, steps[0], steps[1..] + [step], s');
      assert steps + [step] == [steps[0]] + (steps[1..] + [step]);
    }
  }

  lemma ListedAreDistinct(t: Table, p: Row -> bool, limit: nat, rows: seq<Row>)
    requires IsUnfiredListing(t, p, limit, rows)
    ensures DistinctIds(rows)
  {}

  lemma RecordMarks(rows: seq<Row>, acks: seq<bool>, ok: seq<bool>, res: Replay.RunResult, t: Table, t': Table)
    requires Replay.RunRecord(rows, acks, ok, res, t, t')
    ensures |acks| == |rows| && MarkedFrom(t, t', rows, acks, 0)
  {
    forall id | id in t && t'[id] != t[id] ensures AckedFrom(rows, acks, 0, id) {
      assert id in Replay.Select(rows, acks, true);
    }
  }
}
