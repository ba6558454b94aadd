/** Every step keeps every invariant. */
module LifecycleSteps {
  import opened Wrappers
  import opened Policy
  import opened Messages
  import opened Store
  import opened Lifecycle
  import opened LifecycleInvariants

  // ----- Changes to the table -----

  /** What a step promises: the invariant, no inserted row forgotten, and stored rows changed
      only as `MayBecome` says. */
  ghost predicate Keeps(s: State, s': State) {
    && Inv(s') && RowsEvolve(s.db.table, s'.db.table)
    && Grows(s.db.born, s'.db.born) && s.db.purged <= s'.db.purged
  }

  lemma SameDbKeeps(s: State, s': State)
    requires Inv(s') && s'.db == s.db
    ensures Keeps(s, s')
  {
    hide Inv;
  }

  lemma DbOf(s: State)
    requires Inv(s)
    ensures DbInv(s.db) && KeyedById(s.db.table) && FiredAcked(s.db.table, s.acks)
    ensures RecallsBacked(s.recalledBy, s.db.table, s.db.born)
  {
    hide KeysUnique, LinksSound, FiredAcked, RecallsBacked;
  }

  /** The table is spoken of by three invariants only. */
  lemma TableChangeKeepsInv(s: State, db: Db)
    requires Inv(s) && DbInv(db) && db.born == s.db.born
    requires FiredAcked(db.table, s.acks) && RecallsBacked(s.recalledBy, db.table, db.born)
    ensures Inv(s.(db := db))
  {
    hide DbInv, RowsOwned, FiredAcked, CallsSound, JobsSound, OneJobPerRow, MarkingOnce, OutgoingSound, SentSound;
    hide RecallsSound, RecallsBacked, RunsSound, SingleFlight, NothingLost, DeliveriesSound, AckedStored;
  }

  lemma RunsOf(s: State)
    requires Inv(s)
    ensures RunsSound(s.runs, s.db.born, s.acks) && SingleFlight(s.runs, s.slots)
  {
    hide RunsSound, SingleFlight;
  }

  /** The runs are spoken of by two. */
  lemma RunsChangeKeepsInv(s: State, runs: map<nat, ReplayRun>, slots: set<Uuid>)
    requires Inv(s) && RunsSound(runs, s.db.born, s.acks) && SingleFlight(runs, slots)
    ensures Inv(s.(runs := runs, slots := slots))
  {
    hide DbInv, RowsOwned, FiredAcked, CallsSound, JobsSound, OneJobPerRow, MarkingOnce, OutgoingSound, SentSound;
    hide RecallsSound, RecallsBacked, RunsSound, SingleFlight, NothingLost, DeliveriesSound, AckedStored;
  }

  lemma CallsOf(s: State)
    requires Inv(s)
    ensures CallsSound(s.calls, s.db.born) && MarkingOnce(s.calls, s.jobs, s.recalledBy)
    ensures DeliveriesSound(s.queue, s.calls, s.db.born)
  {
    hide CallsSound, MarkingOnce, DeliveriesSound;
  }

  /** The calls are spoken of by three. */
  lemma CallsChangeKeepsInv(s: State, calls: map<nat, Call>)
    requires Inv(s) && CallsSound(calls, s.db.born) && MarkingOnce(calls, s.jobs, s.recalledBy)
    requires DeliveriesSound(s.queue, calls, s.db.born)
    ensures Inv(s.(calls := calls))
  {
    hide DbInv, RowsOwned, FiredAcked, CallsSound, JobsSound, OneJobPerRow, MarkingOnce, OutgoingSound, SentSound;
    hide RecallsSound, RecallsBacked, RunsSound, SingleFlight, NothingLost, DeliveriesSound, AckedStored;
  }

  lemma UpdateEvolves(t: Table, p: Row -> bool, f: Row -> Row)
    requires forall id :: id in t && p(t[id]) ==> MayBecome(t[id], f(t[id]))
    ensures RowsEvolve(t, UpdateWhere(t, p, f))
  {}

  lemma RetentionEvolves(t: Table, p: Row -> bool)
    ensures RowsEvolve(t, UpdateWhere(t, p, ClearLink))
    ensures RowsEvolve(t, UpdateWhere(t, p, Redact))
    ensures RowsEvolve(t, UpdateWhere(t, p, Detach))
  {
    UpdateEvolves(t, p, ClearLink);
    UpdateEvolves(t, p, Redact);
    UpdateEvolves(t, p, Detach);
  }

  lemma MarkFiredEvolves(t: Table, id: Uuid)
    ensures RowsEvolve(t, MarkFired(t, id))
  {
    UpdateEvolves(t, WithId(id), (r: Row) => r.(fired := true));
  }

  lemma MarkRecalledEvolves(t: Table, id: Uuid)
    requires KeyedById(t) && (id in t ==> t[id].action in {EchoBack, Recalled})
    ensures RowsEvolve(t, MarkRecalled(t, id))
  {
    UpdateEvolves(t, WithId(id), (r: Row) => r.(action := Recalled));
  }

  /** Changing neither actions nor the fired flags, nor adding rows, keeps everything. */
  lemma QuietChangeKeepsInv(s: State, db: Db)
    requires Inv(s) && DbInv(db) && db.born == s.db.born
    requires forall id :: id in db.table ==>
               && id in s.db.table && db.table[id].action == s.db.table[id].action
               && db.table[id].fired == s.db.table[id].fired
    ensures Inv(s.(db := db))
  {
    hide DbInv, RowsOwned, CallsSound, JobsSound, OneJobPerRow, MarkingOnce, OutgoingSound, SentSound, RecallsSound;
    hide RunsSound, SingleFlight, NothingLost, DeliveriesSound, AckedStored;
  }

  lemma UpdateIsQuiet(t: Table, p: Row -> bool, f: Row -> Row)
    requires forall r: Row :: f(r).action == r.action && f(r).fired == r.fired
    ensures forall id :: id in t ==>
              UpdateWhere(t, p, f)[id].action == t[id].action && UpdateWhere(t, p, f)[id].fired == t[id].fired
  {}

  lemma RedactionKeepsDb(s: State, p: Row -> bool, f: Row -> Row)
    requires Inv(s) && f in {ClearLink, Redact, Detach}
    ensures var db := s.db.(table := UpdateWhere(s.db.table, p, f));
            Inv(s.(db := db)) && RowsEvolve(s.db.table, db.table)
  {
    var db := s.db.(table := UpdateWhere(s.db.table, p, f));
    RetentionEvolves(s.db.table, p);
    UpdateIsQuiet(s.db.table, p, f);
    hide Logged, KeysUnique, LinksSound, RowsEvolve, UpdateWhere;
    UpdateKeepsDb(s.db, db.table);
    hide Inv, DbInv;
    QuietChangeKeepsInv(s, db);
  }

  lemma PurgeKeepsInv(s: State, tenant: Uuid, cutoff: int)
    requires Inv(s) && DeleteAllowed(s.db.table, OlderThan(tenant, cutoff))
    ensures Keeps(s, s.(db := DeleteRows(s.db, OlderThan(tenant, cutoff))))
  {
    var db := DeleteRows(s.db, OlderThan(tenant, cutoff));
    DeleteKeepsDb(s.db, OlderThan(tenant, cutoff));
    hide Inv, DbInv, RowsEvolve;
    QuietChangeKeepsInv(s, db);
  }

  lemma RetentionKeepsInv(s: State, step: RetentionStep)
    requires Inv(s) && RetentionEnabled(s, step)
    ensures Keeps(s, ApplyRetention(s, step))
  {
    hide Inv, RowsEvolve, UpdateWhere, Redact, Detach, ClearLink, DeleteAllowed;
    match step {
      case ClearLinks(tenant, cutoff) => RedactionKeepsDb(s, RepliesToOlder(s.db.table, tenant, cutoff), ClearLink);
      case PurgeRows(tenant, cutoff) => PurgeKeepsInv(s, tenant, cutoff);
      case RedactContact(tenant, contact) => RedactionKeepsDb(s, OfContact(tenant, contact), Redact);
      case RedactEndpoint(tenant, e) => RedactionKeepsDb(s, FromEndpoint(tenant, e), Redact);
      case DetachContact(tenant, contact) => RedactionKeepsDb(s, OfContact(tenant, contact), Detach);
    }
  }

  /** Marking an acknowledged message fired. */
  lemma MarkFiredKeepsInv(s: State, id: Uuid, o: Outcome)
    requires Inv(s) && id in s.acks
    ensures Keeps(s, s.(db := Marked(s.db, MarkFired(s.db.table, id), o)))
  {
    hide Inv, DbInv, KeyedById, FiredAcked, RecallsBacked, RowsEvolve, MarkFired;
    var t := MarkFired(s.db.table, id);
    DbOf(s);
    NothingEvolves(s.db.table);
    MarkFiredEvolves(s.db.table, id);
    MarkFiredRows(s.db.table, id);
    UpdateKeepsDb(s.db, t);
    StillBacked(s, t);
    StillAcked(s, t, id);
    TableChangeKeepsInv(s, s.db.(table := t));
    assert s == s.(db := s.db);
  }

  lemma StillBacked(s: State, t: Table)
    requires RecallsBacked(s.recalledBy, s.db.table, s.db.born) && t.Keys == s.db.table.Keys
    requires forall k :: k in t ==> t[k].action == s.db.table[k].action
    ensures RecallsBacked(s.recalledBy, t, s.db.born)
  {
    hide IsRecalledBy;
  }

  lemma StillAcked(s: State, t: Table, id: Uuid)
    requires FiredAcked(s.db.table, s.acks) && t.Keys == s.db.table.Keys && id in s.acks
    requires forall k :: k in t && t[k].fired ==> s.db.table[k].fired || k == id
    ensures FiredAcked(t, s.acks)
  {}

  lemma MarkFiredRows(t: Table, id: Uuid)
    requires KeyedById(t)
    ensures MarkFired(t, id).Keys == t.Keys
    ensures forall k :: k in t ==> MarkFired(t, id)[k].action == t[k].action
    ensures forall k :: k in t && MarkFired(t, id)[k].fired ==> t[k].fired || k == id
  {}

  lemma NothingEvolves(t: Table)
    ensures RowsEvolve(t, t)
  {}

  predicate IsFresh(s: State, row: Row) {
    && row.id !in s.db.born && row.account.Some? && row.account.value in s.accounts && !row.fired
    && (row.direction == Inbound ==> row.tenant == s.accounts[row.account.value].tenant)
    && !KeyTaken(s.db.table, row.account.value, row.platformId)
    && (row.inReplyTo.Some? ==>
          row.inReplyTo.value in s.db.table && s.db.table[row.inReplyTo.value].tenant == row.tenant)
  }

  lemma InsertKeepsRows(s: State, row: Row)
    requires Inv(s) && IsFresh(s, row)
    ensures var db := Insert(s.db, row);
            && RowsOwned(s.accounts, db.born) && FiredAcked(db.table, s.acks)
            && RecallsBacked(s.recalledBy, db.table, db.born) && RowsEvolve(s.db.table, db.table)
            && db.purged == s.db.purged
  {
    hide CallsSound, JobsSound, OneJobPerRow, MarkingOnce, OutgoingSound, RecallsSound, RunsSound, SingleFlight;
    hide NothingLost, DeliveriesSound, AckedStored, KeysUnique, LinksSound, KeyTaken, SentSound;
  }

  /** A fresh row with its key free. */
  lemma InsertKeepsInv(s: State, row: Row)
    requires Inv(s) && IsFresh(s, row)
    ensures Keeps(s, s.(db := Insert(s.db, row)))
  {
    InsertKeepsDb(s.db, row);
    InsertKeepsRows(s, row);
    GrowthKeeps(s, Insert(s.db, row).born, s.acks);
    hide DbInv, RowsOwned, FiredAcked, CallsSound, JobsSound, OneJobPerRow, MarkingOnce, OutgoingSound, RecallsSound;
    hide RecallsBacked, RunsSound, SingleFlight, NothingLost, DeliveriesSound, AckedStored, RowsEvolve, Grows, Insert;
    hide IsForwardable;
  }

  /** More acknowledgements. */
  lemma AcksKeepInv(s: State, id: Uuid, ok: bool)
    requires Inv(s) && IsForwardable(s.db.born, id)
    ensures Inv(s.(sent := s.sent + {id}, acks := if ok then s.acks + {id} else s.acks))
  {
    GrowthKeeps(s, s.db.born, s.acks + {id});
    hide DbInv, RowsOwned, FiredAcked, CallsSound, JobsSound, OneJobPerRow, MarkingOnce, OutgoingSound, RecallsSound;
    hide RunsSound, SingleFlight, NothingLost, DeliveriesSound, AckedStored, RecallsBacked, IsForwardable;
  }

  // ----- Queue -----

  lemma QueueKeepsInv(s: State, step: QueueStep)
    requires Inv(s) && QueueEnabled(s, step)
    ensures Keeps(s, ApplyQueue(s, step))
  {
    var s' := ApplyQueue(s, step);
    QueueKeepsDeliveries(s, step);
    QueueLosesNothing(s, step);
    var s1 := s.(calls := s'.calls);
    assert Inv(s1) by {
      hide Inv;
      if step.Publish? {
        BeginKeepsInv(s, step.call, s.queue.accepted[s.queue.deliveries[step.delivery].entry]);
      }
    }
    hide QueueEnabled;
    QueueChangeKeepsInv(s1, s'.queue);
    hide Inv;
    assert s' == s1.(queue := s'.queue);
    SameDbKeeps(s, s');
  }

  lemma QueueChangeKeepsInv(s: State, q: Queue)
    requires Inv(s) && NothingLost(q) && DeliveriesSound(q, s.calls, s.db.born) && AckedStored(q, s.db.born)
    ensures Inv(s.(queue := q))
  {
    hide DbInv, RowsOwned, FiredAcked, CallsSound, JobsSound, OneJobPerRow, MarkingOnce, OutgoingSound, SentSound;
    hide RecallsSound, RecallsBacked, RunsSound, SingleFlight, NothingLost, DeliveriesSound, AckedStored;
  }

  lemma QueueLosesNothing(s: State, step: QueueStep)
    requires Inv(s) && QueueEnabled(s, step)
    ensures NothingLost(ApplyQueue(s, step).queue)
  {
    hide DbInv, RowsOwned, FiredAcked, CallsSound, JobsSound, OneJobPerRow, MarkingOnce, OutgoingSound, SentSound;
    hide RecallsSound, RecallsBacked, RunsSound, SingleFlight, AckedStored;
  }

  lemma QueueKeepsDeliveries(s: State, step: QueueStep)
    requires Inv(s) && QueueEnabled(s, step)
    ensures var s' := ApplyQueue(s, step);
            DeliveriesSound(s'.queue, s'.calls, s.db.born) && AckedStored(s'.queue, s.db.born)
  {
    var s' := ApplyQueue(s, step);
    hide Inv, DeliverySound, AckedStored;
    DeliveryFacts(s);
    forall d | d in s'.queue.deliveries
      ensures DeliverySound(s'.queue.deliveries[d], s'.queue, s'.calls, s.db.born)
    {
      OneDelivery(s, step, d);
    }
    AckKeepsStored(s, step);
  }

  lemma DeliveryFacts(s: State)
    requires Inv(s)
    ensures DeliveriesSound(s.queue, s.calls, s.db.born) && AckedStored(s.queue, s.db.born)
    ensures CallsSound(s.calls, s.db.born) && NothingLost(s.queue)
  {
    hide DeliveriesSound, AckedStored, CallsSound, NothingLost;
  }

  lemma OneDelivery(s: State, step: QueueStep, d: nat)
    requires DeliveriesSound(s.queue, s.calls, s.db.born) && CallsSound(s.calls, s.db.born) && NothingLost(s.queue)
    requires QueueEnabled(s, step) && d in ApplyQueue(s, step).queue.deliveries
    ensures var s' := ApplyQueue(s, step); DeliverySound(s'.queue.deliveries[d], s'.queue, s'.calls, s.db.born)
  {
    hide KeyTaken, IsOops, IsEchoFor;
    if d in s.queue.deliveries {
      assert DeliverySound(s.queue.deliveries[d], s.queue, s.calls, s.db.born);
    }
    if step.HearSuccess? && d == step.delivery {
      assert CallSound(s.calls[s.queue.deliveries[d].call], s.db.born);
    }
  }

  lemma AckKeepsStored(s: State, step: QueueStep)
    requires DeliveriesSound(s.queue, s.calls, s.db.born) && AckedStored(s.queue, s.db.born) && NothingLost(s.queue)
    requires QueueEnabled(s, step)
    ensures AckedStored(ApplyQueue(s, step).queue, s.db.born)
  {
    hide KeyTaken;
    if step.Ack? {
      assert DeliverySound(s.queue.deliveries[step.delivery], s.queue, s.calls, s.db.born);
    }
  }

  // ----- Ingest calls -----

  /** Deliveries know a call by its message only. */
  lemma AdvanceKeepsDeliveries(s: State, c: nat, phase: Phase)
    requires DeliveriesSound(s.queue, s.calls, s.db.born) && c in s.calls
    ensures DeliveriesSound(s.queue, Advance(s, c, phase).calls, s.db.born)
  {
    hide KeyTaken;
    forall d | d in s.queue.deliveries
      ensures DeliverySound(s.queue.deliveries[d], s.queue, Advance(s, c, phase).calls, s.db.born)
    {
      assert DeliverySound(s.queue.deliveries[d], s.queue, s.calls, s.db.born);
    }
  }

  /** A call that moves to a phase it may be in. */
  lemma AdvanceKeepsInv(s: State, c: nat, phase: Phase)
    requires Inv(s) && c in s.calls && CallSound(s.calls[c].(phase := phase), s.db.born) && !phase.Marking?
    ensures Inv(Advance(s, c, phase))
  {
    var s' := Advance(s, c, phase);
    hide DbInv, RowsOwned, FiredAcked, JobsSound, OneJobPerRow, OutgoingSound, SentSound, RecallsSound;
    hide RecallsBacked, RunsSound, SingleFlight, NothingLost, AckedStored, CallSound, DeliveriesSound;
    AdvanceKeepsDeliveries(s, c, phase);
    assert CallsSound(s'.calls, s.db.born);
    assert MarkingOnce(s'.calls, s.jobs, s.recalledBy) by {
      assert forall k :: IsMarking(s'.calls, k) ==> IsMarking(s.calls, k) && s'.calls[k] == s.calls[k];
    }
  }

  lemma BeginKeepsInv(s: State, c: nat, m: Msg)
    requires Inv(s) && c !in s.calls
    ensures Inv(s.(calls := s.calls[c := Call(m, Started)]))
  {
    var s' := s.(calls := s.calls[c := Call(m, Started)]);
    hide DbInv, RowsOwned, FiredAcked, JobsSound, OneJobPerRow, OutgoingSound, SentSound, RecallsSound;
    hide RecallsBacked, RunsSound, SingleFlight, NothingLost, AckedStored, KeyTaken, IsOops, IsEchoFor;
    assert CallsSound(s'.calls, s.db.born);
    assert MarkingOnce(s'.calls, s.jobs, s.recalledBy) by {
      assert forall k :: IsMarking(s'.calls, k) ==> IsMarking(s.calls, k) && s'.calls[k] == s.calls[k];
    }
  }

  /** A key held in the table was inserted at some time. */
  lemma TakenWasInserted(db: Db, account: Uuid, platformId: string)
    requires DbInv(db)
    ensures KeyTaken(db.table, account, platformId) ==> KeyTaken(db.born, account, platformId)
  {
    hide KeysUnique, LinksSound;
    if KeyTaken(db.table, account, platformId) {
      var id :| id in db.table && HasKey(db.table[id], account, platformId);
      assert MayBecome(db.born[id], db.table[id]) && HasKey(db.born[id], account, platformId);
    }
  }

  /** What a recall finds was echoed to the sender who asks. */
  lemma FoundIsEcho(db: Db, m: Msg, cutoff: int, echo: Uuid)
    requires DbInv(db) && IsRecentEcho(db.table, m.account, m.endpoint, cutoff, echo)
    ensures IsEchoFor(db.born, echo, m)
  {
    hide KeysUnique, LinksSound;
    assert MayBecome(db.born[echo], db.table[echo]);
  }

  /** The job of a row just inserted is the only one it has. */
  lemma JobKeepsInv(s: State, j: nat, job: Job)
    requires Inv(s) && j !in s.jobs && JobSound(job, s.accounts, s.db.born, s.acks)
    requires forall k :: k in s.jobs ==> s.jobs[k].origin != job.origin
    requires forall c :: IsMarking(s.calls, c) ==> s.calls[c].phase.oops != job.origin
    ensures Inv(s.(jobs := s.jobs[j := job]))
  {
    hide DbInv, RowsOwned, FiredAcked, CallsSound, OutgoingSound, SentSound, RecallsSound, JobSound;
    hide RecallsBacked, RunsSound, SingleFlight, NothingLost, AckedStored, DeliveriesSound;
  }

  /** Jobs, calls in progress and recalls speak of rows already inserted only. */
  lemma FreshIsUnused(s: State, id: Uuid)
    requires Inv(s) && id !in s.db.born
    ensures forall j :: j in s.jobs ==> s.jobs[j].origin != id
    ensures forall c :: IsMarking(s.calls, c) ==> s.calls[c].phase.oops != id
    ensures id !in s.recalledBy
  {
    hide DbInv, RowsOwned, FiredAcked, OutgoingSound, SentSound, RecallsBacked, RunsSound, SingleFlight, NothingLost;
    hide AckedStored, DeliveriesSound, KeyTaken, OneJobPerRow, MarkingOnce;
    forall c | IsMarking(s.calls, c) ensures s.calls[c].phase.oops != id {
      assert CallSound(s.calls[c], s.db.born);
    }
    forall j | j in s.jobs ensures s.jobs[j].origin != id {
      assert JobSound(s.jobs[j], s.accounts, s.db.born, s.acks);
    }
  }

  /** An OOPS just inserted is the only one to be marked under its id. */
  lemma MarkingKeepsInv(s: State, c: nat, oops: Uuid, echo: Uuid)
    requires Inv(s) && c in s.calls
    requires IsOops(s.db.born, oops, s.calls[c].msg) && IsEchoFor(s.db.born, echo, s.calls[c].msg)
    requires oops !in s.recalledBy && forall j :: j in s.jobs ==> s.jobs[j].origin != oops
    requires forall k :: IsMarking(s.calls, k) ==> s.calls[k].phase.oops != oops
    ensures Inv(Advance(s, c, Marking(oops, echo)))
  {
    hide Inv, IsOops, IsEchoFor, KeyTaken, DeliveriesSound;
    var calls := Advance(s, c, Marking(oops, echo)).calls;
    CallsOf(s);
    AdvanceKeepsDeliveries(s, c, Marking(oops, echo));
    assert CallsSound(calls, s.db.born);
    assert forall k :: IsMarking(calls, k) ==> k == c || (IsMarking(s.calls, k) && calls[k] == s.calls[k]);
    assert MarkingOnce(calls, s.jobs, s.recalledBy);
    CallsChangeKeepsInv(s, calls);
  }

  lemma StoreKeepsInv(s: State, step: CallStep)
    requires Inv(s) && CallEnabled(s, step) && (step.StoreRow? || step.StoreLost?)
    ensures Keeps(s, ApplyCall(s, step))
  {
    var m := s.calls[step.call].msg;
    if KeyTaken(s.db.table, m.account, m.platformId) {
      ConflictKeepsInv(s, step);
    } else {
      InsertingKeepsInv(s, step);
    }
  }

  lemma ConflictKeepsInv(s: State, step: CallStep)
    requires Inv(s) && CallEnabled(s, step) && (step.StoreRow? || step.StoreLost?)
    requires KeyTaken(s.db.table, s.calls[step.call].msg.account, s.calls[step.call].msg.platformId)
    ensures Keeps(s, ApplyCall(s, step))
  {
    hide Inv, KeyTaken, Keeps;
    var c := step.call;
    var m := s.calls[c].msg;
    DbOf(s);
    TakenWasInserted(s.db, m.account, m.platformId);
    AdvanceKeepsInv(s, c, KeyHeld);
    SameDbKeeps(s, Advance(s, c, KeyHeld));
  }

  lemma InsertingKeepsInv(s: State, step: CallStep)
    requires Inv(s) && CallEnabled(s, step) && (step.StoreRow? || step.StoreLost?)
    requires !KeyTaken(s.db.table, s.calls[step.call].msg.account, s.calls[step.call].msg.platformId)
    ensures Keeps(s, ApplyCall(s, step))
  {
    hide Inv, KeyTaken, Keeps, IsOops, IsEchoFor;
    var row := step.row;
    var s1 := s.(db := Insert(s.db, row));
    InsertKeepsInv(s, row);
    KeepsInv(s, s1);
    FreshIsUnused(s, row.id);
    InsertedIsKnown(s, step.call, row);
    hide ApplyCall, MayStore, IsMarking;
    AfterInsertKeepsInv(s, s1, step);
  }

  lemma KeepsInv(s: State, s': State)
    requires Keeps(s, s')
    ensures Inv(s')
  {
    hide Inv;
  }

  /** What a call knows once its row is in. */
  lemma InsertedIsKnown(s: State, c: nat, row: Row)
    requires c in s.calls && MayStore(s, s.calls[c], row) && Inv(s.(db := Insert(s.db, row)))
    ensures var born, m := Insert(s.db, row).born, s.calls[c].msg;
            && KeyTaken(born, m.account, m.platformId)
            && (row.action == Recalled ==>
                  && s.calls[c].phase.Looked? && s.calls[c].phase.found.Some? && IsOops(born, row.id, m)
                  && IsEchoFor(born, s.calls[c].phase.found.value, m))
            && (row.action in {Execute, Routed} ==> IsForwardable(born, row.id))
            && row.id in born && born[row.id].tenant == s.accounts[m.account].tenant
  {
    hide DbInv, RowsOwned, FiredAcked, JobsSound, OneJobPerRow, MarkingOnce, OutgoingSound, SentSound;
    hide RecallsSound, RecallsBacked, RunsSound, SingleFlight, NothingLost, DeliveriesSound, AckedStored;
    var born, m := Insert(s.db, row).born, s.calls[c].msg;
    assert HasKey(born[row.id], m.account, m.platformId);
    assert CallSound(s.calls[c], born);
  }

  /** After the insert: answered, with the row's job; or, for an OOPS that found an echo, on
      to marking it. */
  lemma AfterInsertKeepsInv(s: State, s1: State, step: CallStep)
    requires CallEnabled(s, step) && (step.StoreRow? || step.StoreLost?) && s1 == s.(db := Insert(s.db, step.row))
    requires !KeyTaken(s.db.table, step.row.account.value, step.row.platformId) && Keeps(s, s1)
    requires forall j :: j in s.jobs ==> s.jobs[j].origin != step.row.id
    requires forall k :: IsMarking(s.calls, k) ==> s.calls[k].phase.oops != step.row.id
    requires step.row.id !in s.recalledBy
    requires KeyTaken(s1.db.born, s.calls[step.call].msg.account, s.calls[step.call].msg.platformId)
    requires step.row.action == Recalled ==>
               && s.calls[step.call].phase.Looked? && s.calls[step.call].phase.found.Some?
               && IsOops(s1.db.born, step.row.id, s.calls[step.call].msg)
               && IsEchoFor(s1.db.born, s.calls[step.call].phase.found.value, s.calls[step.call].msg)
    requires step.row.action in {Execute, Routed} ==> IsForwardable(s1.db.born, step.row.id)
    requires step.row.id in s1.db.born
             && s1.db.born[step.row.id].tenant == s.accounts[s.calls[step.call].msg.account].tenant
    ensures Keeps(s, ApplyCall(s, step))
  {
    hide Inv, Keeps, KeyTaken, IsOops, IsEchoFor, IsForwardable, Insert;
    var c, row := step.call, step.row;
    KeepsInv(s, s1);
    if step.StoreLost? {
      AdvanceKeepsInv(s1, c, Answered(false));
    } else if row.action == Recalled {
      MarkingKeepsInv(s1, c, row.id, s.calls[c].phase.found.value);
    } else {
      AnsweredKeepsInv(s1, c, row, step.job, JobFor(row, step.hasConsumer));
    }
    KeepsOn(s, s1, ApplyCall(s, step));
  }

  lemma KeepsOn(s: State, s1: State, s': State)
    requires Keeps(s, s1) && Inv(s') && s'.db == s1.db
    ensures Keeps(s, s')
  {
    hide Inv;
  }

  /** The call answered, and the row's job started if it calls for one. */
  lemma AnsweredKeepsInv(s: State, c: nat, row: Row, j: nat, job: Option<Job>)
    requires Inv(s) && c in s.calls && KeyTaken(s.db.born, s.calls[c].msg.account, s.calls[c].msg.platformId)
    requires forall k :: k in s.jobs ==> s.jobs[k].origin != row.id
    requires forall k :: IsMarking(s.calls, k) ==> s.calls[k].phase.oops != row.id
    requires job.Some? ==>
               j !in s.jobs && job.value.origin == row.id && JobSound(job.value, s.accounts, s.db.born, s.acks)
    ensures Inv(Advance(s, c, Answered(true)).(jobs := WithJob(s.jobs, j, job)))
  {
    hide Inv, KeyTaken, JobSound;
    AdvanceKeepsInv(s, c, Answered(true));
    if job.Some? {
      NoLongerMarking(s, c, row.id);
      JobKeepsInv(Advance(s, c, Answered(true)), j, job.value);
    }
  }

  lemma NoLongerMarking(s: State, c: nat, id: Uuid)
    requires c in s.calls && forall k :: IsMarking(s.calls, k) ==> s.calls[k].phase.oops != id
    ensures var s' := Advance(s, c, Answered(true));
            forall k :: IsMarking(s'.calls, k) ==> s'.calls[k].phase.oops != id
  {
    var s' := Advance(s, c, Answered(true));
    assert forall k :: IsMarking(s'.calls, k) ==> IsMarking(s.calls, k) && s'.calls[k] == s.calls[k];
  }

  /** The echo marked, and logged as this OOPS's. */
  function Recall(s: State, oops: Uuid, echo: Uuid): State {
    s.(db := s.db.(table := MarkRecalled(s.db.table, echo)), recalledBy := s.recalledBy[oops := echo])
  }

  lemma RecallKeepsDb(db: Db, echo: Uuid, m: Msg)
    requires DbInv(db) && IsEchoFor(db.born, echo, m)
    ensures DbInv(db.(table := MarkRecalled(db.table, echo))) && RowsEvolve(db.table, MarkRecalled(db.table, echo))
  {
    assert echo in db.table ==> MayBecome(db.born[echo], db.table[echo]);
    MarkRecalledEvolves(db.table, echo);
    UpdateKeepsDb(db, MarkRecalled(db.table, echo));
  }

  lemma RecallKeepsLogs(s: State, oops: Uuid, echo: Uuid, m: Msg)
    requires Inv(s) && IsOops(s.db.born, oops, m) && IsEchoFor(s.db.born, echo, m) && oops !in s.recalledBy
    ensures var s' := Recall(s, oops, echo);
            && RecallsSound(s'.recalledBy, s.db.born) && RecallsBacked(s'.recalledBy, s'.db.table, s.db.born)
            && FiredAcked(s'.db.table, s.acks)
  {
    hide RowsOwned, CallsSound, JobsSound, OneJobPerRow, MarkingOnce, OutgoingSound, SentSound;
    hide RunsSound, SingleFlight, NothingLost, DeliveriesSound, AckedStored, KeysUnique, LinksSound, IsRecalledBy;
    var s' := Recall(s, oops, echo);
    forall id | id in s'.db.table && id in s.db.born && s.db.born[id].action == EchoBack
                && s'.db.table[id].action == Recalled
      ensures exists o :: IsRecalledBy(s'.recalledBy, o, id)
    {
      if id == echo {
        LogHas(s, oops, echo, oops, echo);
      } else {
        assert s'.db.table[id] == s.db.table[id];
        var o :| IsRecalledBy(s.recalledBy, o, id);
        LogHas(s, oops, echo, o, id);
      }
    }
  }

  lemma LogHas(s: State, oops: Uuid, echo: Uuid, o: Uuid, id: Uuid)
    requires oops !in s.recalledBy
    requires IsRecalledBy(s.recalledBy, o, id) || (o == oops && id == echo)
    ensures IsRecalledBy(Recall(s, oops, echo).recalledBy, o, id)
  {}

  lemma RecallKeepsInv(s: State, oops: Uuid, echo: Uuid, m: Msg)
    requires Inv(s) && IsOops(s.db.born, oops, m) && IsEchoFor(s.db.born, echo, m) && oops !in s.recalledBy
    requires forall k :: IsMarking(s.calls, k) ==> s.calls[k].phase.oops != oops
    ensures Keeps(s, Recall(s, oops, echo))
  {
    DbOf(s);
    CallsOf(s);
    RecallKeepsLogs(s, oops, echo, m);
    hide DbInv, RowsOwned, FiredAcked, CallsSound, JobsSound, OneJobPerRow, OutgoingSound, SentSound, RecallsSound;
    hide RecallsBacked, RunsSound, SingleFlight, NothingLost, DeliveriesSound, AckedStored, IsOops, IsEchoFor;
    hide MarkRecalled, RowsEvolve;
    RecallKeepsDb(s.db, echo, m);
    StillMarkingOnce(s, oops, echo);
    hide MarkingOnce;
  }

  lemma StillMarkingOnce(s: State, oops: Uuid, echo: Uuid)
    requires MarkingOnce(s.calls, s.jobs, s.recalledBy)
    requires forall k :: IsMarking(s.calls, k) ==> s.calls[k].phase.oops != oops
    ensures MarkingOnce(s.calls, s.jobs, s.recalledBy[oops := echo])
  {}

  lemma MarkEchoKeepsInv(s: State, c: nat, o: Outcome, job: nat)
    requires Inv(s) && CallEnabled(s, MarkEcho(c, o, job))
    ensures Keeps(s, ApplyCall(s, MarkEcho(c, o, job)))
  {
    var p, m := s.calls[c].phase, s.calls[c].msg;
    assert IsMarking(s.calls, c) && CallSound(s.calls[c], s.db.born);
    OopsKnown(s, c);
    NothingEvolves(s.db.table);
    var s1 := Advance(s, c, Answered(true));
    assert CallSound(s1.calls[c], s.db.born) by {
      assert HasKey(s.db.born[p.oops], m.account, m.platformId);
    }
    hide CallSound, IsEchoFor, IsOops, Inv, MarkRecalled;
    AdvanceKeepsInv(s, c, Answered(true));
    if o != FailsBefore {
      RecallKeepsInv(s1, p.oops, p.echo, m);
      if o == Done {
        EchoBelongs(s, p.echo, m);
        JobKeepsInv(Recall(s1, p.oops, p.echo), job, Reply(p.oops, p.echo, m.account, false));
      }
    }
  }

  /** An OOPS in marking has no job, no echo and no other call; once answered it has none. */
  lemma OopsKnown(s: State, c: nat)
    requires Inv(s) && IsMarking(s.calls, c)
    ensures var oops := s.calls[c].phase.oops;
            && IsOops(s.db.born, oops, s.calls[c].msg) && oops in s.db.born && oops !in s.recalledBy
            && (forall j :: j in s.jobs ==> s.jobs[j].origin != oops)
            && var calls := Advance(s, c, Answered(true)).calls;
               forall k :: IsMarking(calls, k) ==> calls[k].phase.oops != oops
  {
    hide DbInv, RowsOwned, FiredAcked, JobsSound, OneJobPerRow, OutgoingSound, SentSound, RecallsSound;
    hide RecallsBacked, RunsSound, SingleFlight, NothingLost, DeliveriesSound, AckedStored;
    assert CallSound(s.calls[c], s.db.born);
    var calls := Advance(s, c, Answered(true)).calls;
    assert forall k :: IsMarking(calls, k) ==> k != c && IsMarking(s.calls, k) && calls[k] == s.calls[k];
  }

  lemma EchoBelongs(s: State, echo: Uuid, m: Msg)
    requires Inv(s) && IsEchoFor(s.db.born, echo, m)
    ensures m.account in s.accounts && echo in s.db.born && s.db.born[echo].tenant == s.accounts[m.account].tenant
  {}

  lemma FindEchoKeepsInv(s: State, c: nat, cutoff: int, echo: Option<Uuid>)
    requires Inv(s) && CallEnabled(s, FindEcho(c, cutoff, echo))
    ensures Inv(Advance(s, c, Looked(echo)))
  {
    if echo.Some? {
      FoundIsEcho(s.db, s.calls[c].msg, cutoff, echo.value);
    }
    hide Inv, IsEchoFor;
    AdvanceKeepsInv(s, c, Looked(echo));
  }

  lemma FindExistingKeepsInv(s: State, c: nat)
    requires Inv(s) && c in s.calls
    ensures Inv(Advance(s, c, Answered(KeyTaken(s.db.table, s.calls[c].msg.account, s.calls[c].msg.platformId))))
  {
    var m := s.calls[c].msg;
    TakenWasInserted(s.db, m.account, m.platformId);
    hide Inv, KeyTaken;
    AdvanceKeepsInv(s, c, Answered(KeyTaken(s.db.table, m.account, m.platformId)));
  }

  lemma CallKeepsInv(s: State, step: CallStep)
    requires Inv(s) && CallEnabled(s, step)
    ensures Keeps(s, ApplyCall(s, step))
  {
    hide Inv, KeyTaken, MayStore, IsRecentEcho, NoRecentEcho, Keeps;
    var s' := ApplyCall(s, step);
    if step.StoreRow? || step.StoreLost? {
      StoreKeepsInv(s, step);
    } else if step.MarkEcho? {
      MarkEchoKeepsInv(s, step.call, step.o, step.job);
    } else {
      match step {
        case Begin(c, m) => BeginKeepsInv(s, c, m);
        case Fail(c) => AdvanceKeepsInv(s, c, Answered(false));
        case FindEcho(c, cutoff, echo) => FindEchoKeepsInv(s, c, cutoff, echo);
        case FindExisting(c) => FindExistingKeepsInv(s, c);
      }
      SameDbKeeps(s, s');
    }
  }

  // ----- Jobs and outgoing messages -----

  /** A job that moves on keeps its origin. */
  lemma JobMovesKeepsInv(s: State, j: nat, job: Job)
    requires Inv(s) && j in s.jobs && job.origin == s.jobs[j].origin && JobSound(job, s.accounts, s.db.born, s.acks)
    ensures Inv(s.(jobs := s.jobs[j := job]))
  {
    hide DbInv, RowsOwned, FiredAcked, CallsSound, OutgoingSound, SentSound, RecallsSound, JobSound;
    hide RecallsBacked, RunsSound, SingleFlight, NothingLost, AckedStored, DeliveriesSound;
  }

  lemma OutgoingKeepsInv(s: State, outgoing: map<nat, Outgoing>)
    requires Inv(s) && OutgoingSound(outgoing, s.accounts, s.db.born)
    ensures Inv(s.(outgoing := outgoing))
  {
    hide DbInv, RowsOwned, FiredAcked, CallsSound, JobsSound, OneJobPerRow, MarkingOnce, SentSound, RecallsSound;
    hide RecallsBacked, RunsSound, SingleFlight, NothingLost, DeliveriesSound, AckedStored, OutgoingSound;
  }

  lemma AttemptKeepsInv(s: State, j: nat, ok: bool)
    requires Inv(s) && JobEnabled(s, Attempt(j, ok))
    ensures Inv(ApplyJob(s, Attempt(j, ok)))
  {
    var id := s.jobs[j].origin;
    assert JobSound(s.jobs[j], s.accounts, s.db.born, s.acks);
    AcksKeepInv(s, id, ok);
    hide Inv;
    if ok {
      JobMovesKeepsInv(s.(sent := s.sent + {id}, acks := s.acks + {id}), j, Forward(id, Acknowledged));
    }
  }

  /** A conversation read by the API is a stored row of its tenant. */
  lemma ConversationKnown(s: State, target: Uuid)
    requires Inv(s) && target in s.db.table
    ensures target in s.db.born && s.db.born[target].tenant == s.db.table[target].tenant
    ensures s.db.table[target].account.Some? ==> s.db.table[target].account.value in s.accounts
  {
    hide KeysUnique, LinksSound;
    assert MayBecome(s.db.born[target], s.db.table[target]);
  }

  /** An outbound row about to be recorded is fresh, and is the last of its message. */
  lemma OutboundIsFresh(s: State, out: nat, row: Row)
    requires Inv(s) && JobEnabled(s, StoreOutbound(out, row))
    ensures IsFresh(s, row)
  {
    OutgoingIsSound(s);
    if row.inReplyTo.Some? {
      ConversationKnown(s, row.inReplyTo.value);
    }
    hide Inv, KeyTaken;
  }

  lemma FewerOutgoing(s: State, out: nat)
    requires OutgoingSound(s.outgoing, s.accounts, s.db.born)
    ensures OutgoingSound(s.outgoing - {out}, s.accounts, s.db.born)
  {}

  lemma OutboundKeepsInv(s: State, out: nat, row: Row)
    requires Inv(s) && JobEnabled(s, StoreOutbound(out, row))
    ensures Keeps(s, ApplyJob(s, StoreOutbound(out, row)))
  {
    hide Inv, IsFresh, OutboundAllowed, IsRowOf, OutgoingSound, RowsEvolve, Grows, Insert;
    var s1 := s.(db := Insert(s.db, row));
    OutboundIsFresh(s, out, row);
    InsertKeepsInv(s, row);
    OutgoingIsSound(s1);
    FewerOutgoing(s1, out);
    OutgoingKeepsInv(s1, s1.outgoing - {out});
  }

  lemma MarkForwardKeepsInv(s: State, j: nat, o: Outcome)
    requires Inv(s) && JobEnabled(s, MarkForward(j, o))
    ensures Keeps(s, ApplyJob(s, MarkForward(j, o)))
  {
    var id := s.jobs[j].origin;
    var s1 := s.(db := Marked(s.db, MarkFired(s.db.table, id), o));
    assert JobSound(s.jobs[j], s.accounts, s.db.born, s.acks);
    hide Inv, IsForwardable;
    MarkFiredKeepsInv(s, id, o);
    JobMovesKeepsInv(s1, j, Forward(id, Over));
  }

  lemma DispatchIsSound(s: State, j: nat, out: nat)
    requires JobEnabled(s, Dispatch(j, out)) && JobSound(s.jobs[j], s.accounts, s.db.born, s.acks)
    requires OutgoingSound(s.outgoing, s.accounts, s.db.born)
    ensures OutgoingSound(ApplyJob(s, Dispatch(j, out)).outgoing, s.accounts, s.db.born)
    ensures JobSound(s.jobs[j].(dispatched := true), s.accounts, s.db.born, s.acks)
  {}

  lemma JobIsSound(s: State, j: nat)
    requires Inv(s) && j in s.jobs
    ensures JobSound(s.jobs[j], s.accounts, s.db.born, s.acks)
  {
    hide JobSound;
  }

  lemma DispatchKeepsInv(s: State, j: nat, out: nat)
    requires Inv(s) && JobEnabled(s, Dispatch(j, out))
    ensures Inv(ApplyJob(s, Dispatch(j, out)))
  {
    hide Inv, OutgoingSound, JobSound;
    JobIsSound(s, j);
    OutgoingIsSound(s);
    DispatchIsSound(s, j, out);
    var s1 := s.(jobs := s.jobs[j := s.jobs[j].(dispatched := true)]);
    JobMovesKeepsInv(s, j, s.jobs[j].(dispatched := true));
    OutgoingKeepsInv(s1, ApplyJob(s, Dispatch(j, out)).outgoing);
  }

  /** What has been read of a conversation, or given with a request, is sound. */
  lemma ReadsAreSound(s: State, out: nat, o: Outgoing)
    requires OutgoingSound(s.outgoing, s.accounts, s.db.born) && o.account in s.accounts
    requires o.target.Some? ==> o.target.value in s.db.born && s.db.born[o.target.value].tenant == o.tenant
    ensures OutgoingSound(s.outgoing[out := o], s.accounts, s.db.born)
    ensures OutgoingSound(s.outgoing - {out}, s.accounts, s.db.born)
  {}

  lemma OutgoingIsSound(s: State)
    requires Inv(s)
    ensures OutgoingSound(s.outgoing, s.accounts, s.db.born)
  {
    hide OutgoingSound;
  }

  lemma ReadsKeepInv(s: State, step: JobStep)
    requires Inv(s) && JobEnabled(s, step) && (step.ApiReply? || step.ApiSend?)
    ensures Inv(ApplyJob(s, step))
  {
    hide Inv, OutgoingSound;
    OutgoingIsSound(s);
    var o;
    if step.ApiReply? {
      ConversationKnown(s, step.target);
      var row := s.db.table[step.target];
      o := Outgoing(row.tenant, row.account.value, Some(step.target));
    } else {
      o := Outgoing(step.tenant, step.account, None);
    }
    ReadsAreSound(s, step.out, o);
    OutgoingKeepsInv(s, s.outgoing[step.out := o]);
  }

  lemma DropKeepsInv(s: State, out: nat)
    requires Inv(s) && out in s.outgoing
    ensures Inv(ApplyJob(s, DropOutbound(out)))
  {
    assert OutgoingSound(s.outgoing - {out}, s.accounts, s.db.born);
    hide Inv, OutgoingSound;
    OutgoingKeepsInv(s, s.outgoing - {out});
  }

  lemma GiveUpKeepsInv(s: State, j: nat)
    requires Inv(s) && JobEnabled(s, GiveUp(j))
    ensures Inv(ApplyJob(s, GiveUp(j)))
  {
    assert JobSound(s.jobs[j], s.accounts, s.db.born, s.acks);
    hide Inv, IsForwardable;
    JobMovesKeepsInv(s, j, Forward(s.jobs[j].origin, Over));
  }

  lemma JobStepKeepsInv(s: State, step: JobStep)
    requires Inv(s) && JobEnabled(s, step)
    ensures Keeps(s, ApplyJob(s, step))
  {
    hide Inv, OutboundAllowed, Keeps;
    if step.MarkForward? {
      MarkForwardKeepsInv(s, step.job, step.o);
    } else if step.StoreOutbound? {
      OutboundKeepsInv(s, step.out, step.row);
    } else {
      match step {
        case Attempt(j, ok) => AttemptKeepsInv(s, j, ok);
        case GiveUp(j) => GiveUpKeepsInv(s, j);
        case Dispatch(j, out) => DispatchKeepsInv(s, j, out);
        case DropOutbound(out) => DropKeepsInv(s, out);
        case _ => ReadsKeepInv(s, step);
      }
      SameDbKeeps(s, ApplyJob(s, step));
    }
  }

  // ----- Replay -----

  /** A run that moves on without becoming active or ceasing to be. */
  lemma RunMovesKeepsInv(s: State, r: nat, phase: RunPhase)
    requires Inv(s) && r in s.runs && RunSound(s.runs[r].(phase := phase), s.db.born, s.acks)
    requires Active(s.runs[r].(phase := phase)) == Active(s.runs[r])
    ensures Inv(InPhase(s, r, phase))
  {
    var runs := InPhase(s, r, phase).runs;
    hide DbInv, RowsOwned, FiredAcked, CallsSound, JobsSound, OneJobPerRow, MarkingOnce, OutgoingSound, SentSound;
    hide RecallsSound, RecallsBacked, NothingLost, DeliveriesSound, AckedStored, RunSound;
    assert forall k, tenant :: HeldBy(runs, k, tenant) <==> HeldBy(s.runs, k, tenant);
  }

  lemma BegunRuns(s: State, r: nat, tenant: Uuid, dry: bool)
    requires RunsSound(s.runs, s.db.born, s.acks) && SingleFlight(s.runs, s.slots)
    requires r !in s.runs && (dry || tenant !in s.slots)
    ensures var runs := s.runs[r := ReplayRun(tenant, dry, Listing)];
            RunsSound(runs, s.db.born, s.acks) && SingleFlight(runs, if dry then s.slots else s.slots + {tenant})
  {
    hide IsForwardable, MayBecome;
    var runs := s.runs[r := ReplayRun(tenant, dry, Listing)];
    assert forall k, t :: HeldBy(s.runs, k, t) ==> HeldBy(runs, k, t);
    assert forall k, t :: HeldBy(runs, k, t) ==> HeldBy(s.runs, k, t) || (k == r && t == tenant && !dry);
    assert !dry ==> HeldBy(runs, r, tenant);
  }

  lemma BeginRunKeepsInv(s: State, r: nat, tenant: Uuid, dry: bool)
    requires Inv(s) && ReplayEnabled(s, BeginRun(r, tenant, dry))
    ensures Inv(ApplyReplay(s, BeginRun(r, tenant, dry)))
  {
    hide Inv, RunsSound, SingleFlight;
    RunsOf(s);
    BegunRuns(s, r, tenant, dry);
    var s' := ApplyReplay(s, BeginRun(r, tenant, dry));
    RunsChangeKeepsInv(s, s'.runs, s'.slots);
  }

  /** A run that has ended is as it was, and no longer active. */
  lemma EndedRuns(s: State, r: nat, phase: RunPhase)
    requires RunsSound(s.runs, s.db.born, s.acks) && SingleFlight(s.runs, s.slots) && r in s.runs
    requires !s.runs[r].phase.Ended? && phase.Ended? && RunSound(s.runs[r].(phase := phase), s.db.born, s.acks)
    ensures var runs := s.runs[r := s.runs[r].(phase := phase)];
            && RunsSound(runs, s.db.born, s.acks)
            && SingleFlight(runs, if s.runs[r].dry then s.slots else s.slots - {s.runs[r].tenant})
  {
    hide RunSound;
    var runs := s.runs[r := s.runs[r].(phase := phase)];
    assert forall k, t :: HeldBy(runs, k, t) <==> HeldBy(s.runs, k, t) && k != r;
    assert !s.runs[r].dry ==> HeldBy(s.runs, r, s.runs[r].tenant);
  }

  lemma EndedRunIsSound(run: ReplayRun, born: Table, acks: set<Uuid>)
    requires RunSound(run, born, acks)
    ensures run.phase.Listing? ==> RunSound(run.(phase := Ended([], 0)), born, acks)
    ensures run.phase.Sending? && run.phase.next == |run.phase.rows| ==>
              RunSound(run.(phase := Ended(run.phase.rows, run.phase.next)), born, acks)
  {
    hide IsForwardable, MayBecome;
  }

  lemma EndRunKeepsInv(s: State, r: nat)
    requires Inv(s) && ReplayEnabled(s, EndRun(r))
    ensures Inv(ApplyReplay(s, EndRun(r)))
  {
    hide Inv, RunSound, RunsSound, SingleFlight;
    RunsOf(s);
    RunIsSound(s, r);
    EndedRunIsSound(s.runs[r], s.db.born, s.acks);
    var s' := ApplyReplay(s, EndRun(r));
    EndedRuns(s, r, s'.runs[r].phase);
    RunsChangeKeepsInv(s, s'.runs, s'.slots);
  }

  /** The rows a run lists are inbound messages of its tenant that may be forwarded, each
      listed once. */
  lemma ListedRowsAreSound(s: State, step: ReplayStep)
    requires Inv(s) && step.List? && ReplayEnabled(s, step)
    ensures forall i :: 0 <= i < |step.rows| ==>
              && IsForwardable(s.db.born, step.rows[i].id)
              && s.db.born[step.rows[i].id].tenant == s.runs[step.run].tenant
              && MayBecome(s.db.born[step.rows[i].id], step.rows[i])
              && step.rows[i].id in s.db.table && !s.db.table[step.rows[i].id].fired
    ensures forall i, j :: 0 <= i < j < |step.rows| ==>
              step.rows[i].id != step.rows[j].id && step.rows[i].receivedAt <= step.rows[j].receivedAt
  {
    hide KeysUnique, LinksSound, RowsOwned, FiredAcked, CallsSound, JobsSound, OneJobPerRow, MarkingOnce, OutgoingSound;
    hide SentSound, RecallsSound, RecallsBacked, RunsSound, SingleFlight, NothingLost, DeliveriesSound, AckedStored;
    forall i | 0 <= i < |step.rows|
      ensures && IsForwardable(s.db.born, step.rows[i].id)
              && s.db.born[step.rows[i].id].tenant == s.runs[step.run].tenant
              && MayBecome(s.db.born[step.rows[i].id], step.rows[i])
              && step.rows[i].id in s.db.table && !s.db.table[step.rows[i].id].fired
    {
      var id := step.rows[i].id;
      assert MayBecome(s.db.born[id], s.db.table[id]);
    }
  }

  lemma RunIsSound(s: State, r: nat)
    requires Inv(s) && r in s.runs
    ensures RunSound(s.runs[r], s.db.born, s.acks)
  {
    hide RunSound;
  }

  lemma MarkedRunIsSound(run: ReplayRun, born: Table, acks: set<Uuid>)
    requires RunSound(run, born, acks) && run.phase.Sending? && run.phase.toMark
    ensures 0 < run.phase.next <= |run.phase.rows| && run.phase.rows[run.phase.next - 1].id in acks
    ensures RunSound(run.(phase := run.phase.(toMark := false)), born, acks)
  {
    hide IsForwardable;
  }

  lemma MarkSentKeepsInv(s: State, r: nat, o: Outcome)
    requires Inv(s) && ReplayEnabled(s, MarkSent(r, o))
    ensures Keeps(s, ApplyReplay(s, MarkSent(r, o)))
  {
    hide Inv, RunSound;
    RunIsSound(s, r);
    MarkedRunIsSound(s.runs[r], s.db.born, s.acks);
    var p := s.runs[r].phase;
    var id := p.rows[p.next - 1].id;
    MarkFiredKeepsInv(s, id, o);
    RunMovesKeepsInv(s.(db := Marked(s.db, MarkFired(s.db.table, id), o)), r, p.(toMark := false));
  }

  lemma ReplayKeepsInv(s: State, step: ReplayStep)
    requires Inv(s) && ReplayEnabled(s, step)
    ensures Keeps(s, ApplyReplay(s, step))
  {
    hide Inv, IsUnfiredListing, Keeps;
    if step.MarkSent? {
      MarkSentKeepsInv(s, step.run, step.o);
    } else {
      match step {
        case BeginRun(r, tenant, dry) => BeginRunKeepsInv(s, r, tenant, dry);
        case List(_, _, _, _, _, _) => ListKeepsInv(s, step);
        case Send(r, ok) => SendKeepsInv(s, r, ok);
        case EndRun(r) => EndRunKeepsInv(s, r);
      }
      SameDbKeeps(s, ApplyReplay(s, step));
    }
  }

  lemma ListKeepsInv(s: State, step: ReplayStep)
    requires Inv(s) && step.List? && ReplayEnabled(s, step)
    ensures Inv(ApplyReplay(s, step))
  {
    var r := step.run;
    var phase := if s.runs[r].dry then Ended(step.rows, 0) else Sending(step.rows, 0, false);
    ListedRowsAreSound(s, step);
    assert RunSound(s.runs[r].(phase := phase), s.db.born, s.acks) by {
      hide IsForwardable, Inv, IsUnfiredListing;
    }
    hide Inv, RunSound;
    RunMovesKeepsInv(s, r, phase);
  }

  /** A run about to send has a message that may be sent; once sent, and its answer logged,
      the run is sound again. */
  lemma SentRunIsSound(run: ReplayRun, born: Table, acks: set<Uuid>, ok: bool)
    requires RunSound(run, born, acks) && run.phase.Sending? && run.phase.next < |run.phase.rows|
    ensures var p := run.phase;
            && IsForwardable(born, p.rows[p.next].id)
            && RunSound(run.(phase := Sending(p.rows, p.next + 1, ok)), born,
                        if ok then acks + {p.rows[p.next].id} else acks)
  {
    hide IsForwardable, MayBecome;
  }

  lemma SendKeepsInv(s: State, r: nat, ok: bool)
    requires Inv(s) && ReplayEnabled(s, Send(r, ok))
    ensures Inv(ApplyReplay(s, Send(r, ok)))
  {
    hide Inv, RunSound, IsForwardable;
    var p := s.runs[r].phase;
    var id := p.rows[p.next].id;
    RunIsSound(s, r);
    SentRunIsSound(s.runs[r], s.db.born, s.acks, ok);
    AcksKeepInv(s, id, ok);
    var s1 := s.(sent := s.sent + {id}, acks := if ok then s.acks + {id} else s.acks);
    RunMovesKeepsInv(s1, r, Sending(p.rows, p.next + 1, ok));
  }

  // ----- All steps, all runs -----

  /** Every step, in any state the invariant allows. */
  lemma StepKeepsInv(s: State, step: Step)
    requires Inv(s) && Enabled(s, step)
    ensures Keeps(s, Apply(s, step))
  {
    hide Inv, Keeps, QueueEnabled, CallEnabled, JobEnabled, ReplayEnabled, RetentionEnabled;
    match step {
      case QueueStep(q) => QueueKeepsInv(s, q);
      case CallStep(c) => CallKeepsInv(s, c);
      case JobStep(j) => JobStepKeepsInv(s, j);
      case ReplayStep(r) => ReplayKeepsInv(s, r);
      case RetentionStep(t) => RetentionKeepsInv(s, t);
    }
  }

  lemma InitialInv(accounts: map<Uuid, Account>)
    ensures Inv(Initial(accounts))
  {}

  lemma {:induction false} InvHolds(run: seq<State>, steps: seq<Step>, n: nat)
    requires IsRun(run, steps) && n < |run|
    ensures Inv(run[n])
  {
    if n == 0 {
      InitialInv(run[0].accounts);
    } else {
      InvHolds(run, steps, n - 1);
      StepKeepsInv(run[n - 1], steps[n - 1]);
    }
  }
}
