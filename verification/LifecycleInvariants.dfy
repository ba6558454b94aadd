/** What every step of the lifecycle keeps. Each invariant speaks of only the parts of the
    state it needs, so that a step that leaves those parts alone keeps it at once. */
module LifecycleInvariants {
  import opened Wrappers
  import opened Policy
  import opened Decision
  import opened Messages
  import opened Store
  import opened Lifecycle

  // ----- The database -----

  /** The columns that redaction strips. */
  datatype Content = Content(
    senderEndpoint: Option<string>, bodyText: string, attachments: Option<string>, location: Option<Point>,
    parsed: Option<Doc>, raw: RawPayload)

  function ContentOf(r: Row): Content {
    Content(r.senderEndpoint, r.bodyText, r.attachments, r.location, r.parsed, r.raw)
  }

  /** What statements may make of a stored row: its identity stays; its content stays or is
      redacted; its action changes only from echoed to recalled; a link, or both contacts,
      are only ever removed; and a fired row stays fired. */
  predicate MayBecome(r: Row, r': Row) {
    && r'.id == r.id && r'.tenant == r.tenant && r'.account == r.account && r'.channel == r.channel
    && r'.direction == r.direction && r'.platformId == r.platformId
    && r'.receivedAt == r.receivedAt && r'.processedAt == r.processedAt
    && (ContentOf(r') == ContentOf(r) || ContentOf(r') == ContentOf(Redact(r)))
    && ((r'.senderContact == r.senderContact && r'.recipientContact == r.recipientContact)
        || (r'.senderContact.None? && r'.recipientContact.None?))
    && (r'.inReplyTo == r.inReplyTo || r'.inReplyTo.None?)
    && (r'.action == r.action || (r.action == EchoBack && r'.action == Recalled))
    && (r.fired ==> r'.fired)
  }

  ghost predicate RowsEvolve(t: Table, t': Table) {
    forall id :: id in t && id in t' ==> MayBecome(t[id], t'[id])
  }

  /** Every id ever inserted is in the table or purged, and its row descends from the one
      inserted. */
  ghost predicate Logged(db: Db) {
    && KeyedById(db.table) && KeyedById(db.born)
    && db.born.Keys == db.table.Keys + db.purged && db.table.Keys !! db.purged
    && forall id :: id in db.table ==> MayBecome(db.born[id], db.table[id])
  }

  ghost predicate DbInv(db: Db) {
    Logged(db) && KeysUnique(db.table) && LinksSound(db.table)
  }

  /** Every row has an account, and an inbound row has its account's tenant. */
  ghost predicate RowsOwned(accounts: map<Uuid, Account>, born: Table) {
    forall id :: id in born ==>
      && born[id].account.Some? && born[id].account.value in accounts
      && (born[id].direction == Inbound ==> born[id].tenant == accounts[born[id].account.value].tenant)
  }

  ghost predicate FiredAcked(table: Table, acks: set<Uuid>) {
    forall id :: id in table && table[id].fired ==> id in acks
  }

  // ----- Calls, jobs and outgoing messages -----

  ghost predicate IsEchoFor(born: Table, echo: Uuid, m: Msg) {
    && echo in born && born[echo].action == EchoBack && born[echo].direction == Inbound
    && born[echo].account == Some(m.account) && m.endpoint.Some? && born[echo].senderEndpoint == m.endpoint
  }

  ghost predicate IsOops(born: Table, oops: Uuid, m: Msg) {
    && oops in born && born[oops].action == Recalled && born[oops].direction == Inbound
    && HasKey(born[oops], m.account, m.platformId) && born[oops].senderEndpoint == m.endpoint
  }

  ghost predicate CallSound(c: Call, born: Table) {
    match c.phase
    case Started => true
    case Looked(found) => found.Some? ==> IsEchoFor(born, found.value, c.msg)
    case KeyHeld => KeyTaken(born, c.msg.account, c.msg.platformId)
    case Marking(oops, echo) => IsOops(born, oops, c.msg) && IsEchoFor(born, echo, c.msg)
    case Answered(ok) => ok ==> KeyTaken(born, c.msg.account, c.msg.platformId)
  }

  ghost predicate CallsSound(calls: map<nat, Call>, born: Table) {
    forall c :: c in calls ==> CallSound(calls[c], born)
  }

  /** A message that was sent to the consumer when it was decided on, or may be sent. */
  ghost predicate IsForwardable(born: Table, id: Uuid) {
    id in born && born[id].action in {Execute, Routed} && born[id].direction == Inbound
  }

  ghost predicate JobSound(j: Job, accounts: map<Uuid, Account>, born: Table, acks: set<Uuid>) {
    && j.origin in born
    && match j
       case Forward(id, progress) => IsForwardable(born, id) && (progress == Acknowledged ==> id in acks)
       case Reply(_, target, account, _) =>
         target in born && account in accounts && born[target].tenant == accounts[account].tenant
  }

  ghost predicate JobsSound(jobs: map<nat, Job>, accounts: map<Uuid, Account>, born: Table, acks: set<Uuid>) {
    forall j :: j in jobs ==> JobSound(jobs[j], accounts, born, acks)
  }

  /** No row has two jobs. */
  ghost predicate OneJobPerRow(jobs: map<nat, Job>) {
    forall j, j' :: j in jobs && j' in jobs && jobs[j].origin == jobs[j'].origin ==> j == j'
  }

  predicate IsMarking(calls: map<nat, Call>, c: nat) {
    c in calls && calls[c].phase.Marking?
  }

  /** An OOPS still to be marked is so in one call only, and has no job and no echo yet. */
  ghost predicate MarkingOnce(calls: map<nat, Call>, jobs: map<nat, Job>, recalledBy: map<Uuid, Uuid>) {
    && (forall c :: IsMarking(calls, c) ==> calls[c].phase.oops !in recalledBy)
    && (forall c, j :: IsMarking(calls, c) && j in jobs ==> jobs[j].origin != calls[c].phase.oops)
    && (forall c, c' :: IsMarking(calls, c) && IsMarking(calls, c') && calls[c].phase.oops == calls[c'].phase.oops ==>
          c == c')
  }

  ghost predicate OutgoingSound(outgoing: map<nat, Outgoing>, accounts: map<Uuid, Account>, born: Table) {
    forall o :: o in outgoing ==>
      && outgoing[o].account in accounts
      && (outgoing[o].target.Some? ==>
            outgoing[o].target.value in born && born[outgoing[o].target.value].tenant == outgoing[o].tenant)
  }

  ghost predicate SentSound(sent: set<Uuid>, acks: set<Uuid>, born: Table) {
    acks <= sent && forall id :: id in sent ==> IsForwardable(born, id)
  }

  // ----- Recalls -----

  /** Each OOPS marked an echo of its own account and sender. */
  ghost predicate RecallsSound(recalledBy: map<Uuid, Uuid>, born: Table) {
    forall o :: o in recalledBy ==>
      && o in born && born[o].action == Recalled && born[o].direction == Inbound
      && recalledBy[o] in born && born[recalledBy[o]].action == EchoBack && born[recalledBy[o]].direction == Inbound
      && born[recalledBy[o]].account == born[o].account && born[recalledBy[o]].senderEndpoint == born[o].senderEndpoint
  }

  ghost predicate IsRecalledBy(recalledBy: map<Uuid, Uuid>, oops: Uuid, id: Uuid) {
    oops in recalledBy && recalledBy[oops] == id
  }

  /** No echo is recalled without an OOPS. */
  ghost predicate RecallsBacked(recalledBy: map<Uuid, Uuid>, table: Table, born: Table) {
    forall id :: id in table && id in born && born[id].action == EchoBack && table[id].action == Recalled ==>
      exists oops :: IsRecalledBy(recalledBy, oops, id)
  }

  // ----- Replay -----

  ghost predicate RunSound(run: ReplayRun, born: Table, acks: set<Uuid>) {
    run.phase.Listing? || (
      && run.phase.next <= |run.phase.rows| && (run.dry ==> run.phase.next == 0)
      && (forall i :: 0 <= i < |run.phase.rows| ==>
            && IsForwardable(born, run.phase.rows[i].id) && born[run.phase.rows[i].id].tenant == run.tenant
            && MayBecome(born[run.phase.rows[i].id], run.phase.rows[i]))
      && (forall i, j :: 0 <= i < j < |run.phase.rows| ==> run.phase.rows[i].id != run.phase.rows[j].id)
      && (forall i, j :: 0 <= i < j < |run.phase.rows| ==> run.phase.rows[i].receivedAt <= run.phase.rows[j].receivedAt)
      && (if run.phase.Sending? then !run.dry else run.dry || run.phase.next == |run.phase.rows|)
      && (run.phase.Sending? && run.phase.toMark ==>
            0 < run.phase.next && run.phase.rows[run.phase.next - 1].id in acks))
  }

  ghost predicate RunsSound(runs: map<nat, ReplayRun>, born: Table, acks: set<Uuid>) {
    forall r :: r in runs ==> RunSound(runs[r], born, acks)
  }

  ghost predicate HeldBy(runs: map<nat, ReplayRun>, r: nat, tenant: Uuid) {
    r in runs && Active(runs[r]) && runs[r].tenant == tenant
  }

  /** The slots taken are those of the active runs, one run each. */
  ghost predicate SingleFlight(runs: map<nat, ReplayRun>, slots: set<Uuid>) {
    && (forall r, tenant :: HeldBy(runs, r, tenant) ==> tenant in slots)
    && (forall tenant :: tenant in slots ==> exists r :: HeldBy(runs, r, tenant))
    && (forall r, r', tenant :: HeldBy(runs, r, tenant) && HeldBy(runs, r', tenant) ==> r == r')
  }

  // ----- The queue -----

  ghost predicate NothingLost(q: Queue) {
    q.accepted.Keys == q.waiting + q.inFlight + q.acked + q.dead
  }

  ghost predicate DeliverySound(d: Delivery, q: Queue, calls: map<nat, Call>, born: Table) {
    && d.entry in q.accepted
    && (d.Publishing? ==> d.call in calls && calls[d.call].msg == q.accepted[d.entry])
    && (d.Published? ==> KeyTaken(born, q.accepted[d.entry].account, q.accepted[d.entry].platformId))
  }

  ghost predicate DeliveriesSound(q: Queue, calls: map<nat, Call>, born: Table) {
    forall d :: d in q.deliveries ==> DeliverySound(q.deliveries[d], q, calls, born)
  }

  /** An acknowledged message has been stored. */
  ghost predicate AckedStored(q: Queue, born: Table) {
    forall e :: e in q.acked && e in q.accepted ==> KeyTaken(born, q.accepted[e].account, q.accepted[e].platformId)
  }

  ghost predicate Inv(s: State) {
    && DbInv(s.db) && RowsOwned(s.accounts, s.db.born) && FiredAcked(s.db.table, s.acks)
    && CallsSound(s.calls, s.db.born) && JobsSound(s.jobs, s.accounts, s.db.born, s.acks)
    && OneJobPerRow(s.jobs) && MarkingOnce(s.calls, s.jobs, s.recalledBy)
    && OutgoingSound(s.outgoing, s.accounts, s.db.born) && SentSound(s.sent, s.acks, s.db.born)
    && RecallsSound(s.recalledBy, s.db.born) && RecallsBacked(s.recalledBy, s.db.table, s.db.born)
    && RunsSound(s.runs, s.db.born, s.acks) && SingleFlight(s.runs, s.slots)
    && NothingLost(s.queue) && DeliveriesSound(s.queue, s.calls, s.db.born) && AckedStored(s.queue, s.db.born)
  }

  // ----- How the database changes -----

  ghost predicate Grows(born: Table, born': Table) {
    forall id :: id in born ==> id in born' && born'[id] == born[id]
  }

  /** Nothing need happen to a row, and what happens in two steps happens in one. */
  lemma MayBecomeItself(r: Row)
    ensures MayBecome(r, r)
  {}

  lemma MayBecomeOn(r: Row, r1: Row, r2: Row)
    requires MayBecome(r, r1) && MayBecome(r1, r2)
    ensures MayBecome(r, r2)
  {}

  /** What stays of a row, whatever it becomes. */
  lemma IdentityStays(r: Row, r': Row)
    requires MayBecome(r, r')
    ensures r'.id == r.id && r'.tenant == r.tenant && r'.account == r.account && r'.platformId == r.platformId
    ensures r'.inReplyTo == r.inReplyTo || r'.inReplyTo.None?
  {}

  lemma InsertKeepsDb(db: Db, row: Row)
    requires DbInv(db) && row.id !in db.born && row.account.Some?
    requires !KeyTaken(db.table, row.account.value, row.platformId)
    requires row.inReplyTo.Some? ==>
               row.inReplyTo.value in db.table && db.table[row.inReplyTo.value].tenant == row.tenant
    ensures DbInv(Insert(db, row)) && Grows(db.born, Insert(db, row).born)
  {
    hide Logged, KeysUnique, LinksSound, KeyTaken;
    InsertKeepsLog(db, row);
    InsertKeepsKeys(db.table, row);
    InsertKeepsLinks(db.table, row);
  }

  lemma InsertKeepsLog(db: Db, row: Row)
    requires Logged(db) && row.id !in db.born
    ensures Logged(Insert(db, row)) && row.id !in db.table
  {
    hide MayBecome;
    MayBecomeItself(row);
  }

  lemma InsertKeepsLinks(t: Table, row: Row)
    requires LinksSound(t) && row.id !in t
    requires row.inReplyTo.Some? ==> row.inReplyTo.value in t && t[row.inReplyTo.value].tenant == row.tenant
    ensures LinksSound(t[row.id := row])
  {}

  lemma InsertKeepsKeys(t: Table, row: Row)
    requires KeysUnique(t) && row.id !in t && row.account.Some? && !KeyTaken(t, row.account.value, row.platformId)
    ensures KeysUnique(t[row.id := row])
  {
    hide KeyTaken;
    assert forall id :: id in t ==> !HasKey(t[id], row.account.value, row.platformId) by {
      KeyIsFree(t, row.account.value, row.platformId);
    }
  }

  lemma KeyIsFree(t: Table, account: Uuid, platformId: string)
    ensures !KeyTaken(t, account, platformId) ==> forall id :: id in t ==> !HasKey(t[id], account, platformId)
  {}

  lemma UpdateKeepsDb(db: Db, t: Table)
    requires DbInv(db) && t.Keys == db.table.Keys && RowsEvolve(db.table, t)
    ensures DbInv(db.(table := t))
  {
    hide Logged, KeysUnique, LinksSound, RowsEvolve;
    UpdateKeepsLog(db, t);
    UpdateKeepsKeys(db.table, t);
    UpdateKeepsLinks(db.table, t);
  }

  lemma UpdateKeepsLog(db: Db, t: Table)
    requires Logged(db) && t.Keys == db.table.Keys && RowsEvolve(db.table, t)
    ensures Logged(db.(table := t))
  {
    hide MayBecome;
    forall id | id in t ensures MayBecome(db.born[id], t[id]) && t[id].id == id {
      assert id in db.table;
      IdentityStays(db.table[id], t[id]);
      MayBecomeOn(db.born[id], db.table[id], t[id]);
    }
  }

  lemma UpdateKeepsKeys(t: Table, t': Table)
    requires KeysUnique(t) && t'.Keys == t.Keys && RowsEvolve(t, t')
    ensures KeysUnique(t')
  {
    hide MayBecome;
    forall id, id' | id in t' && id' in t' && SameKey(t'[id], t'[id']) ensures id == id' {
      assert id in t && id' in t;
      IdentityStays(t[id], t'[id]);
      IdentityStays(t[id'], t'[id']);
      assert SameKey(t[id], t[id']);
    }
  }

  lemma UpdateKeepsLinks(t: Table, t': Table)
    requires LinksSound(t) && t'.Keys == t.Keys && RowsEvolve(t, t')
    ensures LinksSound(t')
  {
    hide MayBecome;
    forall id | id in t' && t'[id].inReplyTo.Some?
      ensures t'[id].inReplyTo.value in t' && t'[t'[id].inReplyTo.value].tenant == t'[id].tenant
    {
      assert id in t;
      IdentityStays(t[id], t'[id]);
      IdentityStays(t[t[id].inReplyTo.value], t'[t[id].inReplyTo.value]);
    }
  }

  lemma DeleteKeepsDb(db: Db, p: Row -> bool)
    requires DbInv(db) && DeleteAllowed(db.table, p)
    ensures DbInv(DeleteRows(db, p)) && RowsEvolve(db.table, DeleteRows(db, p).table)
  {}

  /** What is stored stays stored: nothing said about the rows ever inserted, or about the
      acknowledgements, is undone by more of them. */
  lemma GrowthKeeps(s: State, born: Table, acks: set<Uuid>)
    requires Inv(s) && Grows(s.db.born, born) && s.acks <= acks
    ensures CallsSound(s.calls, born) && JobsSound(s.jobs, s.accounts, born, acks)
    ensures OutgoingSound(s.outgoing, s.accounts, born)
    ensures forall id :: id in s.sent ==> IsForwardable(born, id)
    ensures RecallsSound(s.recalledBy, born) && RunsSound(s.runs, born, acks)
    ensures FiredAcked(s.db.table, acks)
    ensures DeliveriesSound(s.queue, s.calls, born) && AckedStored(s.queue, born)
  {
    hide DbInv, KeyTaken, SingleFlight, NothingLost, MarkingOnce, OneJobPerRow, RowsOwned;
    KeysStayTaken(s.db.born, born);
  }

  lemma KeysStayTaken(born: Table, born': Table)
    requires Grows(born, born')
    ensures forall a, p :: KeyTaken(born, a, p) ==> KeyTaken(born', a, p)
  {
    forall a, p | KeyTaken(born, a, p) ensures KeyTaken(born', a, p) {
      var id :| id in born && HasKey(born[id], a, p);
      assert HasKey(born'[id], a, p);
    }
  }
}
