/** The message lifecycle as a step system: webhook queue, drain worker, ingest calls,
    background jobs, outbound API, replay and retention, interleaved in every way. A step
    is one queue operation, one SQL statement or one network call; calls fail, replies are
    lost and processes stop at any point. */
module Lifecycle {
  import opened Wrappers
  import opened Policy
  import opened Messages
  import opened Store

  // ----- State -----

  /** What the lifecycle sees of an inbound message. */
  datatype Msg = Msg(account: Uuid, platformId: string, endpoint: Option<string>)

  /** The `messages` table, with two ghost logs: every row as it was inserted, and the ids
      of the rows deleted since. */
  datatype Db = Db(table: Table, born: Table, purged: set<Uuid>)

  /** One receipt of a queue entry by a drain worker. */
  datatype Delivery =
    | Received(entry: nat)
    | Publishing(entry: nat, call: nat)
    | Published(entry: nat)
    | Refused(entry: nat)
    | Settled(entry: nat)

  /** The queue's entries by where they are; `accepted` logs all there have ever been. */
  datatype Queue = Queue(
    accepted: map<nat, Msg>, waiting: set<nat>, inFlight: set<nat>, acked: set<nat>, dead: set<nat>,
    deliveries: map<nat, Delivery>)

  /** How far a call of the ingest endpoint has come: for an OOPS, the echo it found; a
      conflicting key, still to be looked up; an OOPS stored, its echo still to be marked. */
  datatype Phase =
    | Started
    | Looked(found: Option<Uuid>)
    | KeyHeld
    | Marking(oops: Uuid, echo: Uuid)
    | Answered(ok: bool)

  datatype Call = Call(msg: Msg, phase: Phase)

  /** A background job, named by the row whose insertion called for it. */
  datatype Job =
    | Forward(origin: Uuid, progress: Progress)
    | Reply(origin: Uuid, target: Uuid, account: Uuid, dispatched: bool)

  datatype Progress = Trying | Acknowledged | Over

  /** An outbound message on its way: read or dispatched, not yet recorded. */
  datatype Outgoing = Outgoing(tenant: Uuid, account: Uuid, target: Option<Uuid>)

  datatype RunPhase =
    | Listing
    | Sending(rows: seq<Row>, next: nat, toMark: bool)
    | Ended(rows: seq<Row>, next: nat)

  datatype ReplayRun = ReplayRun(tenant: Uuid, dry: bool, phase: RunPhase)

  /** `accounts` is fixed: no statement changes an account's tenant or type. `sent` and
      `acks` log the messages whose forward was attempted, and acknowledged with a 2xx;
      `recalledBy` logs for each OOPS the echo it marked. */
  datatype State = State(
    accounts: map<Uuid, Account>, db: Db, queue: Queue, calls: map<nat, Call>, jobs: map<nat, Job>,
    outgoing: map<nat, Outgoing>, runs: map<nat, ReplayRun>, slots: set<Uuid>,
    sent: set<Uuid>, acks: set<Uuid>, recalledBy: map<Uuid, Uuid>)

  function Initial(accounts: map<Uuid, Account>): State {
    State(accounts, Db(map[], map[], {}), Queue(map[], {}, {}, {}, {}, map[]), map[], map[], map[], map[], {}, {}, {},
          map[])
  }

  // ----- Writes on the database -----

  function Insert(db: Db, row: Row): Db {
    db.(table := db.table[row.id := row], born := db.born[row.id := row])
  }

  function DeleteRows(db: Db, p: Row -> bool): Db {
    db.(table := DeleteWhere(db.table, p), purged := db.purged + Matching(db.table, p))
  }

  /** A marking statement that succeeds, fails without effect, or fails after it. */
  function Marked(db: Db, marked: Table, o: Outcome): Db {
    if o == FailsBefore then db else db.(table := marked)
  }

  // ----- Steps -----

  datatype Step =
    | QueueStep(queueStep: QueueStep)
    | CallStep(callStep: CallStep)
    | JobStep(jobStep: JobStep)
    | ReplayStep(replayStep: ReplayStep)
    | RetentionStep(retentionStep: RetentionStep)

  /** The webhook accepts a message; a worker receives an entry, publishes it, hears or does
      not hear the answer, acknowledges or returns it. The queue makes an entry visible
      again when it likes, even one that was acknowledged, or moves it to the dead-letter
      queue. */
  datatype QueueStep =
    | Accept(entry: nat, msg: Msg)
    | Receive(delivery: nat, entry: nat)
    | Redeliver(entry: nat)
    | DeadLetter(entry: nat)
    | Publish(delivery: nat, call: nat)
    | HearSuccess(delivery: nat)
    | HearFailure(delivery: nat)
    | Ack(delivery: nat, ok: bool)
    | Nack(delivery: nat, ok: bool)

  /** A call of the ingest endpoint: begun by anyone, rejected or broken off at any point;
      an OOPS looks for the echo; the row is inserted, with or without the answer arriving;
      a conflict is looked up; the echo is marked. */
  datatype CallStep =
    | Begin(call: nat, msg: Msg)
    | Fail(call: nat)
    | FindEcho(call: nat, cutoff: int, echo: Option<Uuid>)
    | StoreRow(call: nat, row: Row, job: nat, hasConsumer: bool)
    | StoreLost(call: nat, row: Row)
    | FindExisting(call: nat)
    | MarkEcho(call: nat, o: Outcome, job: nat)

  /** A forward is attempted, acknowledged or not, and marked; a reply is dispatched; the
      API reads a conversation or sends unprompted; an outbound message is recorded. */
  datatype JobStep =
    | Attempt(job: nat, ok: bool)
    | MarkForward(job: nat, o: Outcome)
    | GiveUp(job: nat)
    | Dispatch(job: nat, out: nat)
    | ApiReply(out: nat, target: Uuid)
    | ApiSend(out: nat, tenant: Uuid, account: Uuid)
    | StoreOutbound(out: nat, row: Row)
    | DropOutbound(out: nat)

  datatype ReplayStep =
    | BeginRun(run: nat, tenant: Uuid, dry: bool)
    | List(run: nat, channels: map<Uuid, Channel>, since: int, channel: Option<Uuid>, limit: nat, rows: seq<Row>)
    | Send(run: nat, ok: bool)
    | MarkSent(run: nat, o: Outcome)
    | EndRun(run: nat)

  datatype RetentionStep =
    | ClearLinks(tenant: Uuid, cutoff: int)
    | PurgeRows(tenant: Uuid, cutoff: int)
    | RedactContact(tenant: Uuid, contact: Uuid)
    | RedactEndpoint(tenant: Uuid, endpoint: string)
    | DetachContact(tenant: Uuid, contact: Uuid)

  // ----- Queue -----

  predicate QueueEnabled(s: State, step: QueueStep) {
    var q := s.queue;
    match step
    case Accept(e, _) => e !in q.accepted
    case Receive(d, e) => d !in q.deliveries && e in q.waiting
    case Redeliver(e) => e in q.inFlight + q.acked
    case DeadLetter(e) => e in q.waiting
    case Publish(d, c) =>
      d in q.deliveries && q.deliveries[d].Received? && q.deliveries[d].entry in q.accepted && c !in s.calls
    case HearSuccess(d) =>
      && d in q.deliveries && q.deliveries[d].Publishing?
      && q.deliveries[d].call in s.calls && s.calls[q.deliveries[d].call].phase == Answered(true)
    case HearFailure(d) => d in q.deliveries && (q.deliveries[d].Received? || q.deliveries[d].Publishing?)
    case Ack(d, _) => d in q.deliveries && q.deliveries[d].Published?
    case Nack(d, _) => d in q.deliveries && q.deliveries[d].Refused?
  }

  function Settle(q: Queue, d: nat): Queue
    requires d in q.deliveries
  {
    q.(deliveries := q.deliveries[d := Settled(q.deliveries[d].entry)])
  }

  function QueueAfter(q: Queue, step: QueueStep): Queue
    requires (step.Publish? || step.HearSuccess? || step.HearFailure? || step.Ack? || step.Nack?) ==>
               step.delivery in q.deliveries
  {
    match step
    case Accept(e, m) => q.(accepted := q.accepted[e := m], waiting := q.waiting + {e})
    case Receive(d, e) =>
      q.(waiting := q.waiting - {e}, inFlight := q.inFlight + {e}, deliveries := q.deliveries[d := Received(e)])
    case Redeliver(e) => q.(waiting := q.waiting + {e}, inFlight := q.inFlight - {e})
    case DeadLetter(e) => q.(waiting := q.waiting - {e}, dead := q.dead + {e})
    case Publish(d, c) => q.(deliveries := q.deliveries[d := Publishing(q.deliveries[d].entry, c)])
    case HearSuccess(d) => q.(deliveries := q.deliveries[d := Published(q.deliveries[d].entry)])
    case HearFailure(d) => q.(deliveries := q.deliveries[d := Refused(q.deliveries[d].entry)])
    case Ack(d, ok) =>
      var e := q.deliveries[d].entry;
      if ok then Settle(q, d).(inFlight := q.inFlight - {e}, waiting := q.waiting - {e}, acked := q.acked + {e})
      else Settle(q, d)
    case Nack(d, ok) =>
      var e := q.deliveries[d].entry;
      if ok && e in q.inFlight then Settle(q, d).(inFlight := q.inFlight - {e}, waiting := q.waiting + {e})
      else Settle(q, d)
  }

  function ApplyQueue(s: State, step: QueueStep): State
    requires QueueEnabled(s, step)
  {
    var s' := s.(queue := QueueAfter(s.queue, step));
    if step.Publish? then
      s'.(calls := s.calls[step.call := Call(s.queue.accepted[s.queue.deliveries[step.delivery].entry], Started)])
    else s'
  }

  // ----- Ingest calls -----

  /** Any row ingest may insert for a message: only its action depends on what was decided. */
  predicate IsRowFor(s: State, row: Row, m: Msg) {
    && row.id !in s.db.born && m.account in s.accounts
    && row.account == Some(m.account) && row.platformId == m.platformId && row.senderEndpoint == m.endpoint
    && row.direction == Inbound && row.tenant == s.accounts[m.account].tenant
    && !row.fired && row.inReplyTo.None?
  }

  predicate MayStore(s: State, c: Call, row: Row) {
    && IsRowFor(s, row, c.msg)
    && match c.phase
       case Started => row.action in {Clarify, EchoBack, Execute, Routed}
       case Looked(found) => row.action == if found.Some? then Recalled else Clarify
       case _ => false
  }

  ghost predicate CallEnabled(s: State, step: CallStep) {
    match step
    case Begin(c, _) => c !in s.calls
    case Fail(c) => c in s.calls && !s.calls[c].phase.Answered?
    case FindEcho(c, cutoff, echo) =>
      && c in s.calls && s.calls[c].phase.Started?
      && var m := s.calls[c].msg;
         if echo.Some? then IsRecentEcho(s.db.table, m.account, m.endpoint, cutoff, echo.value)
         else NoRecentEcho(s.db.table, m.account, m.endpoint, cutoff)
    case StoreRow(c, row, job, _) => c in s.calls && MayStore(s, s.calls[c], row) && job !in s.jobs
    case StoreLost(c, row) =>
      c in s.calls && MayStore(s, s.calls[c], row) && !KeyTaken(s.db.table, row.account.value, row.platformId)
    case FindExisting(c) => c in s.calls && s.calls[c].phase.KeyHeld?
    case MarkEcho(c, _, job) => c in s.calls && s.calls[c].phase.Marking? && job !in s.jobs
  }

  /** The job a newly stored row calls for. */
  function JobFor(row: Row, hasConsumer: bool): Option<Job>
    requires row.account.Some?
  {
    if row.action == EchoBack then Some(Reply(row.id, row.id, row.account.value, false))
    else if row.action in {Execute, Routed} && hasConsumer then Some(Forward(row.id, Trying))
    else None
  }

  function WithJob(jobs: map<nat, Job>, j: nat, job: Option<Job>): map<nat, Job> {
    if job.Some? then jobs[j := job.value] else jobs
  }

  function Advance(s: State, c: nat, phase: Phase): State
    requires c in s.calls
  {
    s.(calls := s.calls[c := s.calls[c].(phase := phase)])
  }

  /** The insert of a call's row: a conflict, or stored and answered with its job started,
      or, for an OOPS that found an echo, stored and still to mark it. */
  function AfterStore(s: State, c: nat, row: Row, job: nat, hasConsumer: bool): State
    requires c in s.calls && MayStore(s, s.calls[c], row)
  {
    if KeyTaken(s.db.table, row.account.value, row.platformId) then Advance(s, c, KeyHeld)
    else
      var s' := s.(db := Insert(s.db, row));
      if row.action == Recalled then Advance(s', c, Marking(row.id, s.calls[c].phase.found.value))
      else Advance(s', c, Answered(true)).(jobs := WithJob(s.jobs, job, JobFor(row, hasConsumer)))
  }

  /** The echo is marked, and the recall confirmed unless the marking reports a failure. */
  function AfterMark(s: State, c: nat, o: Outcome, job: nat): State
    requires c in s.calls && s.calls[c].phase.Marking?
  {
    var p := s.calls[c].phase;
    var s' := Advance(s, c, Answered(true)).(db := Marked(s.db, MarkRecalled(s.db.table, p.echo), o));
    var s'' := if o == FailsBefore then s' else s'.(recalledBy := s.recalledBy[p.oops := p.echo]);
    if o == Done then s''.(jobs := s.jobs[job := Reply(p.oops, p.echo, s.calls[c].msg.account, false)]) else s''
  }

  function ApplyCall(s: State, step: CallStep): State
    requires CallEnabled(s, step)
  {
    match step
    case Begin(c, m) => s.(calls := s.calls[c := Call(m, Started)])
    case Fail(c) => Advance(s, c, Answered(false))
    case FindEcho(c, _, echo) => Advance(s, c, Looked(echo))
    case StoreRow(c, row, job, hasConsumer) => AfterStore(s, c, row, job, hasConsumer)
    case StoreLost(c, row) => Advance(s, c, Answered(false)).(db := Insert(s.db, row))
    case FindExisting(c) =>
      Advance(s, c, Answered(KeyTaken(s.db.table, s.calls[c].msg.account, s.calls[c].msg.platformId)))
    case MarkEcho(c, o, job) => AfterMark(s, c, o, job)
  }

  // ----- Background jobs and the outbound API -----

  predicate IsRowOf(s: State, row: Row, o: Outgoing) {
    && row.id !in s.db.born
    && row.tenant == o.tenant && row.account == Some(o.account) && row.inReplyTo == o.target
    && row.direction == Outbound && row.action in {EchoedBack, Recalled, Sent} && !row.fired
  }

  ghost predicate JobEnabled(s: State, step: JobStep) {
    match step
    case Attempt(j, _) => j in s.jobs && s.jobs[j].Forward? && s.jobs[j].progress == Trying
    case MarkForward(j, _) => j in s.jobs && s.jobs[j].Forward? && s.jobs[j].progress == Acknowledged
    case GiveUp(j) => j in s.jobs && s.jobs[j].Forward?
    case Dispatch(j, out) =>
      j in s.jobs && s.jobs[j].Reply? && !s.jobs[j].dispatched && out !in s.outgoing && s.jobs[j].account in s.accounts
    case ApiReply(out, target) =>
      && out !in s.outgoing && target in s.db.table
      && s.db.table[target].account.Some? && s.db.table[target].senderEndpoint.Some?
    case ApiSend(out, _, account) => out !in s.outgoing && account in s.accounts
    case StoreOutbound(out, row) =>
      out in s.outgoing && IsRowOf(s, row, s.outgoing[out]) && OutboundAllowed(s.db.table, row)
    case DropOutbound(out) => out in s.outgoing
  }

  function ApplyJob(s: State, step: JobStep): State
    requires JobEnabled(s, step)
  {
    match step
    case Attempt(j, ok) =>
      var id := s.jobs[j].origin;
      if ok then s.(sent := s.sent + {id}, acks := s.acks + {id}, jobs := s.jobs[j := Forward(id, Acknowledged)])
      else s.(sent := s.sent + {id})
    case MarkForward(j, o) =>
      var id := s.jobs[j].origin;
      s.(db := Marked(s.db, MarkFired(s.db.table, id), o), jobs := s.jobs[j := Forward(id, Over)])
    case GiveUp(j) => s.(jobs := s.jobs[j := Forward(s.jobs[j].origin, Over)])
    case Dispatch(j, out) =>
      var job := s.jobs[j];
      s.(outgoing := s.outgoing[out := Outgoing(s.accounts[job.account].tenant, job.account, Some(job.target))],
         jobs := s.jobs[j := job.(dispatched := true)])
    case ApiReply(out, target) =>
      var row := s.db.table[target];
      s.(outgoing := s.outgoing[out := Outgoing(row.tenant, row.account.value, Some(target))])
    case ApiSend(out, tenant, account) => s.(outgoing := s.outgoing[out := Outgoing(tenant, account, None)])
    case StoreOutbound(out, row) => s.(db := Insert(s.db, row), outgoing := s.outgoing - {out})
    case DropOutbound(out) => s.(outgoing := s.outgoing - {out})
  }

  // ----- Replay -----

  ghost predicate ReplayEnabled(s: State, step: ReplayStep) {
    match step
    case BeginRun(r, tenant, dry) => r !in s.runs && tenant != NIL && (dry || tenant !in s.slots)
    case List(r, channels, since, channel, limit, rows) =>
      && r in s.runs && s.runs[r].phase.Listing?
      && IsUnfiredListing(s.db.table, Candidates(s.runs[r].tenant, channels, s.accounts, since, channel), limit, rows)
    case Send(r, _) =>
      && r in s.runs && s.runs[r].phase.Sending? && !s.runs[r].phase.toMark
      && s.runs[r].phase.next < |s.runs[r].phase.rows|
    case MarkSent(r, _) =>
      && r in s.runs && s.runs[r].phase.Sending? && s.runs[r].phase.toMark
      && 0 < s.runs[r].phase.next <= |s.runs[r].phase.rows|
    case EndRun(r) =>
      && r in s.runs
      && (s.runs[r].phase.Listing?
          || (s.runs[r].phase.Sending? && !s.runs[r].phase.toMark && s.runs[r].phase.next == |s.runs[r].phase.rows|))
  }

  function InPhase(s: State, r: nat, phase: RunPhase): State
    requires r in s.runs
  {
    s.(runs := s.runs[r := s.runs[r].(phase := phase)])
  }

  function ApplyReplay(s: State, step: ReplayStep): State
    requires ReplayEnabled(s, step)
  {
    match step
    case BeginRun(r, tenant, dry) =>
      s.(runs := s.runs[r := ReplayRun(tenant, dry, Listing)], slots := if dry then s.slots else s.slots + {tenant})
    case List(r, _, _, _, _, rows) => InPhase(s, r, if s.runs[r].dry then Ended(rows, 0) else Sending(rows, 0, false))
    case Send(r, ok) =>
      var p := s.runs[r].phase;
      var id := p.rows[p.next].id;
      InPhase(s, r, Sending(p.rows, p.next + 1, ok))
        .(sent := s.sent + {id}, acks := if ok then s.acks + {id} else s.acks)
    case MarkSent(r, o) =>
      var p := s.runs[r].phase;
      InPhase(s, r, p.(toMark := false)).(db := Marked(s.db, MarkFired(s.db.table, p.rows[p.next - 1].id), o))
    case EndRun(r) =>
      var p := s.runs[r].phase;
      InPhase(s, r, if p.Sending? then Ended(p.rows, p.next) else Ended([], 0))
        .(slots := if s.runs[r].dry then s.slots else s.slots - {s.runs[r].tenant})
  }

  // ----- Retention -----

  predicate RetentionEnabled(s: State, step: RetentionStep) {
    step.PurgeRows? ==> DeleteAllowed(s.db.table, OlderThan(step.tenant, step.cutoff))
  }

  function ApplyRetention(s: State, step: RetentionStep): State {
    var t := s.db.table;
    match step
    case ClearLinks(tenant, cutoff) =>
      s.(db := s.db.(table := UpdateWhere(t, RepliesToOlder(t, tenant, cutoff), ClearLink)))
    case PurgeRows(tenant, cutoff) => s.(db := DeleteRows(s.db, OlderThan(tenant, cutoff)))
    case RedactContact(tenant, contact) => s.(db := s.db.(table := UpdateWhere(t, OfContact(tenant, contact), Redact)))
    case RedactEndpoint(tenant, e) => s.(db := s.db.(table := UpdateWhere(t, FromEndpoint(tenant, e), Redact)))
    case DetachContact(tenant, contact) => s.(db := s.db.(table := UpdateWhere(t, OfContact(tenant, contact), Detach)))
  }

  // ----- Runs of the whole system -----

  ghost predicate Enabled(s: State, step: Step) {
    match step
    case QueueStep(q) => QueueEnabled(s, q)
    case CallStep(c) => CallEnabled(s, c)
    case JobStep(j) => JobEnabled(s, j)
    case ReplayStep(r) => ReplayEnabled(s, r)
    case RetentionStep(t) => RetentionEnabled(s, t)
  }

  ghost function Apply(s: State, step: Step): State
    requires Enabled(s, step)
  {
    match step
    case QueueStep(q) => ApplyQueue(s, q)
    case CallStep(c) => ApplyCall(s, c)
    case JobStep(j) => ApplyJob(s, j)
    case ReplayStep(r) => ApplyReplay(s, r)
    case RetentionStep(t) => ApplyRetention(s, t)
  }

  /** The steps, one after the other, lead from `s` to `s'`. */
  ghost predicate Leads(s: State, steps: seq<Step>, s': State)
    decreases |steps|
  {
    if steps == [] then s' == s
    else Enabled(s, steps[0]) && Leads(Apply(s, steps[0]), steps[1..], s')
  }

  lemma NoSteps(s: State)
    ensures Leads(s, [], s)
  {}

  lemma LeadsOn(s: State, step: Step, rest: seq<Step>, s': State)
    requires Enabled(s, step) && Leads(Apply(s, step), rest, s')
    ensures Leads(s, [step] + rest, s')
  {
    assert ([step] + rest)[1..] == rest;
  }

  /** A finite run of the system from an empty database. */
  ghost predicate IsRun(run: seq<State>, steps: seq<Step>) {
    && |run| == |steps| + 1 && run[0] == Initial(run[0].accounts)
    && forall i :: 0 <= i < |steps| ==> Enabled(run[i], steps[i]) && run[i + 1] == Apply(run[i], steps[i])
  }

  /** What steps lead to from the end of a run is the end of a longer run. */
  lemma {:induction false} RunGoesOn(run: seq<State>, steps: seq<Step>, more: seq<Step>, s': State)
    requires IsRun(run, steps) && Leads(run[|run| - 1], more, s')
    ensures exists run' :: IsRun(run', steps + more) && run <= run' && run'[|run'| - 1] == s'
    decreases |more|
  {
    hide Enabled, Apply;
    if more == [] {
      assert steps + more == steps && IsRun(run, steps + more);
    } else {
      var last := run[|run| - 1];
      var longer, further := run + [Apply(last, more[0])], steps + [more[0]];
      OneMoreStep(run, steps, more[0]);
      RunGoesOn(longer, further, more[1..], s');
      assert further + more[1..] == steps + more;
      var run' :| IsRun(run', steps + more) && longer <= run' && run'[|run'| - 1] == s';
      assert run <= run';
    }
  }

  lemma OneMoreStep(run: seq<State>, steps: seq<Step>, step: Step)
    requires IsRun(run, steps) && Enabled(run[|run| - 1], step)
    ensures IsRun(run + [Apply(run[|run| - 1], step)], steps + [step])
  {
    hide Enabled, Apply;
  }

  /** The rows a replay has sent so far. */
  function Attempted(run: ReplayRun): seq<Row> {
    match run.phase
    case Listing => []
    case Sending(rows, next, _) => if next <= |rows| then rows[..next] else []
    case Ended(rows, next) => if next <= |rows| then rows[..next] else []
  }

  predicate Active(run: ReplayRun) {
    !run.dry && !run.phase.Ended?
  }
}
