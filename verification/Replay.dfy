/** `internal/replay`: re-firing the forwards no consumer acknowledged, one run per tenant. */
module Replay {
  import opened Wrappers
  import opened Canonical
  import opened Messages
  import opened Store
  import opened Forwarding
  import opened Policy

  const DEFAULT_LIMIT: int := 100
  const MAX_LIMIT: int := 1000

  datatype Request = Request(tenant: Uuid, channel: Option<Uuid>, since: int, limit: int, dryRun: bool)

  datatype RunError = Invalid | AlreadyRunning | ListFailed

  datatype RunResult = RunResult(
    candidates: nat, replayed: nat, failed: nat, dryRun: bool, failures: seq<Uuid>, messageIds: seq<Uuid>)

  function LimitOf(limit: int): nat {
    if limit <= 0 then DEFAULT_LIMIT else if limit > MAX_LIMIT then MAX_LIMIT else limit
  }

  function Ids(rows: seq<Row>): seq<Uuid> {
    seq(|rows|, i requires 0 <= i < |rows| => rows[i].id)
  }

  /** The rows whose outcome is `wanted`, in order. */
  function Chosen(rows: seq<Row>, ok: seq<bool>, wanted: bool): (chosen: seq<Row>)
    requires |ok| == |rows|
    ensures forall row :: row in chosen <==> exists i :: 0 <= i < |rows| && ok[i] == wanted && rows[i] == row
  {
    if rows == [] then []
    else
      var n := |rows| - 1;
      Chosen(rows[..n], ok[..n], wanted) + if ok[n] == wanted then [rows[n]] else []
  }

  /** Their ids. */
  function Select(rows: seq<Row>, ok: seq<bool>, wanted: bool): (ids: seq<Uuid>)
    requires |ok| == |rows|
    ensures |ids| == |Chosen(rows, ok, wanted)|
    ensures forall id :: id in ids <==> exists i :: 0 <= i < |rows| && ok[i] == wanted && rows[i].id == id
  {
    var chosen := Chosen(rows, ok, wanted);
    assert forall i :: 0 <= i < |rows| && ok[i] == wanted ==> rows[i] in chosen;
    assert forall k :: 0 <= k < |chosen| ==> chosen[k] in chosen && Ids(chosen)[k] == chosen[k].id;
    Ids(chosen)
  }

  lemma ChosenExtend(rows: seq<Row>, ok: seq<bool>, row: Row, o: bool, wanted: bool)
    requires |ok| == |rows|
    ensures Chosen(rows + [row], ok + [o], wanted) ==
            if o == wanted then Chosen(rows, ok, wanted) + [row] else Chosen(rows, ok, wanted)
  {
    assert (rows + [row])[..|rows|] == rows && (ok + [o])[..|ok|] == ok;
  }

  lemma SelectExtend(rows: seq<Row>, ok: seq<bool>, row: Row, o: bool, wanted: bool)
    requires |ok| == |rows|
    ensures Select(rows + [row], ok + [o], wanted) ==
            if o == wanted then Select(rows, ok, wanted) + [row.id] else Select(rows, ok, wanted)
  {
    ChosenExtend(rows, ok, row, o, wanted);
  }

  /** Each candidate is replayed or failed, not both. */
  lemma {:induction false} SelectCounts(rows: seq<Row>, ok: seq<bool>)
    requires |ok| == |rows|
    ensures |Select(rows, ok, true)| + |Select(rows, ok, false)| == |rows|
  {
    if rows != [] {
      SelectCounts(rows[..|rows| - 1], ok[..|rows| - 1]);
    }
  }

  /** The consumers: every message they were sent, and every one they acknowledged. */
  class Consumers {
    var sent: seq<(string, ForwardBody)>
    var acknowledged: seq<ForwardBody>

    constructor ()
      ensures sent == [] && acknowledged == []
    {
      sent, acknowledged := [], [];
    }

    /** Deliver to a consumer, which may or may not acknowledge. */
    method Forward(url: string, body: ForwardBody) returns (ok: bool)
      modifies this
      ensures sent == old(sent) + [(url, body)]
      ensures acknowledged == if ok then old(acknowledged) + [body] else old(acknowledged)
    {
      ok := *;
      sent := sent + [(url, body)];
      if ok {
        acknowledged := acknowledged + [body];
      }
    }
  }

  predicate Deliverable(channels: map<Uuid, Channel>, accounts: map<Uuid, Account>, r: Row) {
    HasWorkflow(channels, r.channel) && r.account.Some? && r.account.value in accounts
  }

  /** What is sent for a row: its payload, to its channel's consumer. */
  function Delivery(c: Codec, channels: map<Uuid, Channel>, accounts: map<Uuid, Account>, r: Row): (string, ForwardBody)
    requires Deliverable(channels, accounts, r)
  {
    (channels[r.channel.value].workflowUrl.value, ReplayPayload(c, r, accounts[r.account.value].type_))
  }

  function Deliveries(c: Codec, channels: map<Uuid, Channel>, accounts: map<Uuid, Account>, rows: seq<Row>)
    : seq<(string, ForwardBody)>
    requires forall r <- rows :: Deliverable(channels, accounts, r)
  {
    seq(|rows|, i requires 0 <= i < |rows| => Delivery(c, channels, accounts, rows[i]))
  }

  /** One delivery a row, in order: the row's payload, to the URL of its own channel. */
  ghost predicate SentInOrder(c: Codec, channels: map<Uuid, Channel>, accounts: map<Uuid, Account>, rows: seq<Row>,
                              sent: seq<(string, ForwardBody)>) {
    && |sent| == |rows|
    && forall i :: 0 <= i < |rows| ==>
         && rows[i].channel.Some? && rows[i].channel.value in channels
         && channels[rows[i].channel.value].workflowUrl == Some(sent[i].0) && sent[i].0 != ""
         && rows[i].account.Some? && rows[i].account.value in accounts
         && sent[i].1 == ReplayPayload(c, rows[i], accounts[rows[i].account.value].type_)
  }

  lemma DeliveredInOrder(c: Codec, channels: map<Uuid, Channel>, accounts: map<Uuid, Account>, rows: seq<Row>)
    requires forall r <- rows :: Deliverable(channels, accounts, r)
    ensures SentInOrder(c, channels, accounts, rows, Deliveries(c, channels, accounts, rows))
  {
    hide ReplayPayload;
    assert forall i :: 0 <= i < |rows| ==> Deliverable(channels, accounts, rows[i]);
  }

  function Payloads(c: Codec, channels: map<Uuid, Channel>, accounts: map<Uuid, Account>, rows: seq<Row>)
    : seq<ForwardBody>
    requires forall r <- rows :: Deliverable(channels, accounts, r)
  {
    seq(|rows|, i requires 0 <= i < |rows| => Delivery(c, channels, accounts, rows[i]).1)
  }

  /** The payloads of those rows whose consumer acknowledged them. */
  function Acknowledged(c: Codec, channels: map<Uuid, Channel>, accounts: map<Uuid, Account>, rows: seq<Row>,
                        acks: seq<bool>): seq<ForwardBody>
    requires |acks| == |rows| && forall r <- rows :: Deliverable(channels, accounts, r)
  {
    var acked := Chosen(rows, acks, true);
    assert forall row <- acked :: row in rows;
    Payloads(c, channels, accounts, acked)
  }

  /** `t'` is `t` with some acknowledged rows marked fired, and all of `marked`. */
  ghost predicate MarkedFired(t: Table, t': Table, marked: seq<Uuid>, acked: seq<Uuid>) {
    && t'.Keys == t.Keys
    && (forall id :: id in t ==> t'[id] == t[id] || (id in acked && t'[id] == t[id].(fired := true)))
    && (forall id <- marked :: id in t' && t'[id].fired)
  }

  class Service {
    const codec: Codec
    const db: Database
    const consumers: Consumers
    const channels: map<Uuid, Channel>
    const accounts: map<Uuid, Account>
    /** The tenants whose slot is held. */
    var running: set<Uuid>

    constructor (codec: Codec, db: Database, consumers: Consumers, channels: map<Uuid, Channel>,
                 accounts: map<Uuid, Account>)
      ensures this.codec == codec && this.db == db && this.consumers == consumers
      ensures this.channels == channels && this.accounts == accounts && running == {}
    {
      this.codec, this.db, this.consumers := codec, db, consumers;
      this.channels, this.accounts, this.running := channels, accounts, {};
    }

    method Acquire(tenant: Uuid) returns (ok: bool)
      modifies this`running
      ensures ok <==> tenant !in old(running)
      ensures running == old(running) + {tenant}
    {
      if tenant in running {
        assert running + {tenant} == running;
        return false;
      }
      running := running + {tenant};
      return true;
    }

    method Release(tenant: Uuid)
      modifies this`running
      ensures running == old(running) - {tenant}
    {
      running := running - {tenant};
    }

    /** The WHERE clause a request lists by. */
    function Selects(req: Request): Row -> bool {
      Candidates(req.tenant, channels, accounts, req.since, req.channel)
    }

    /** A run with the tenant's slot free attempts each candidate once, oldest first; what it
        reports as failed is exactly what it did not both deliver and mark. A run finding
        the slot held does nothing, and so does a dry run, which needs no slot. */
    method Run(req: Request)
      returns (r: Result<RunResult, RunError>, ghost rows: seq<Row>, ghost acks: seq<bool>, ghost ok: seq<bool>)
      requires KeyedById(db.messages)
      modifies this`running, db`messages, db`faults, consumers
      ensures req.tenant == NIL <==> r == Err(Invalid)
      ensures r == Err(AlreadyRunning) <==> req.tenant != NIL && !req.dryRun && req.tenant in old(running)
      ensures running == old(running)
      ensures r.Err? || req.dryRun ==> unchanged(db`messages) && unchanged(consumers)
      ensures if r == Err(ListFailed) then db.faults == old(db.faults) + 1
              else r.Err? || req.dryRun ==> db.faults == old(db.faults)
      ensures r.Ok? ==>
        && IsUnfiredListing(old(db.messages), Selects(req), LimitOf(req.limit), rows)
        && (forall row <- rows :: Deliverable(channels, accounts, row))
        && |rows| <= (if req.limit <= 0 then 100 else if req.limit < 1000 then req.limit else 1000)
        && (forall row <- rows ::
              && row.tenant == req.tenant && row.direction == Inbound && !row.fired && row.action in {Routed, Execute}
              && row.receivedAt >= req.since && (req.channel.Some? ==> row.channel == req.channel))
        && r.value.dryRun == req.dryRun && r.value.candidates == |rows| && r.value.messageIds == Ids(rows)
      ensures r.Ok? && req.dryRun ==> r.value.replayed == r.value.failed == 0 && r.value.failures == []
      ensures r.Ok? && !req.dryRun ==>
        && r.value.candidates == r.value.replayed + r.value.failed
        && RunRecord(rows, acks, ok, r.value, old(db.messages), db.messages)
        && consumers.sent == old(consumers.sent) + Deliveries(codec, channels, accounts, rows)
        && SentInOrder(codec, channels, accounts, rows, consumers.sent[|old(consumers.sent)|..])
        && consumers.acknowledged == old(consumers.acknowledged) + Acknowledged(codec, channels, accounts, rows, acks)
        && db.faults - old(db.faults) == |Select(rows, acks, true)| - r.value.replayed
        && (db.faults == old(db.faults) ==> ok == acks)
    {
      rows, acks, ok := [], [], [];
      if req.tenant == NIL {
        return Err(Invalid), rows, acks, ok;
      }
      if !req.dryRun {
        var free := Acquire(req.tenant);
        if !free {
          assert running == old(running);
          return Err(AlreadyRunning), rows, acks, ok;
        }
      }
      var listed := db.ListOldest(Selects(req), LimitOf(req.limit));
      if listed.Err? {
        r := Err(ListFailed);
      } else {
        rows := listed.value;
        if req.dryRun {
          r := Ok(RunResult(|listed.value|, 0, 0, true, [], Ids(listed.value)));
        } else {
          var res;
          res, acks, ok := Attempt(listed.value);
          DeliveredInOrder(codec, channels, accounts, rows);
          r := Ok(res);
        }
      }
      if !req.dryRun {
        Release(req.tenant);
        assert running == old(running);
      }
    }

    /** Deliver the listed rows one after the other; a failure does not stop the run. */
    method Attempt(rows: seq<Row>) returns (res: RunResult, ghost acks: seq<bool>, ghost ok: seq<bool>)
      requires forall row <- rows :: Deliverable(channels, accounts, row)
      requires forall i :: 0 <= i < |rows| ==> rows[i].id in db.messages
      requires KeyedById(db.messages)
      modifies db`messages, db`faults, consumers
      ensures res.candidates == |rows| == res.replayed + res.failed && res.messageIds == Ids(rows) && !res.dryRun
      ensures RunRecord(rows, acks, ok, res, old(db.messages), db.messages)
      ensures consumers.sent == old(consumers.sent) + Deliveries(codec, channels, accounts, rows)
      ensures consumers.acknowledged ==
              old(consumers.acknowledged) + Acknowledged(codec, channels, accounts, rows, acks)
      ensures db.faults - old(db.faults) == |Select(rows, acks, true)| - res.replayed
      ensures db.faults == old(db.faults) ==> ok == acks
    {
      hide RunRecord, Select, Chosen, Deliveries, Delivery, Acknowledged, Ids;
      res, acks, ok := RunResult(|rows|, 0, 0, false, [], []), [], [];
      ghost var t := db.messages;
      RecordStart(res, t);
      SentStart(codec, channels, accounts);
      for i := 0 to |rows|
        invariant KeyedById(db.messages)
        invariant res.candidates == |rows| && res.messageIds == Ids(rows[..i]) && !res.dryRun
        invariant RunRecord(rows[..i], acks, ok, res, t, db.messages)
        invariant consumers.sent == old(consumers.sent) + Deliveries(codec, channels, accounts, rows[..i])
        invariant |acks| == i && consumers.acknowledged ==
                  old(consumers.acknowledged) + Acknowledged(codec, channels, accounts, rows[..i], acks)
        invariant db.faults - old(db.faults) == |Select(rows[..i], acks, true)| - res.replayed
        invariant db.faults >= old(db.faults) && (db.faults == old(db.faults) ==> ok == acks)
      {
        var row := rows[i];
        ghost var t1 := db.messages;
        var delivered, marked := AttemptOne(row);
        RecordExtends(rows[..i], acks, ok, res, t, t1, row, delivered, marked, db.messages);
        SentExtends(codec, channels, accounts, rows, i);
        AcknowledgedExtends(codec, channels, accounts, rows[..i], acks, row, delivered);
        acks, ok := acks + [delivered], ok + [marked];
        res := Count(res, row.id, marked);
      }
      assert rows[..|rows|] == rows;
      RecordTotals(rows, acks, ok, res, t, db.messages);
    }

    /** `replayOne`: mark the row fired once its consumer has acknowledged it. `delivered` is the
        consumer's answer, and a delivered row goes unmarked only when the mark failed. */
    method AttemptOne(row: Row) returns (delivered: bool, marked: bool)
      requires Deliverable(channels, accounts, row) && KeyedById(db.messages)
      modifies db`messages, db`faults, consumers
      ensures consumers.sent == old(consumers.sent) + [Delivery(codec, channels, accounts, row)]
      ensures consumers.acknowledged == old(consumers.acknowledged)
                                        + if delivered then [Delivery(codec, channels, accounts, row).1] else []
      ensures db.faults == old(db.faults) + if delivered && !marked then 1 else 0
      ensures marked ==> delivered && db.messages == MarkFired(old(db.messages), row.id)
      ensures db.messages == old(db.messages) || (delivered && db.messages == MarkFired(old(db.messages), row.id))
      ensures KeyedById(db.messages)
    {
      var (url, body) := Delivery(codec, channels, accounts, row);
      delivered := consumers.Forward(url, body);
      if !delivered {
        return false, false;
      }
      var n := db.Update(WithId(row.id), (r: Row) => r.(fired := true));
      marked := n.Ok?;
    }
  }

  /** The result after one more attempt. */
  function Count(res: RunResult, id: Uuid, ok: bool): RunResult {
    var res := res.(messageIds := res.messageIds + [id]);
    if ok then res.(replayed := res.replayed + 1)
    else res.(failed := res.failed + 1, failures := res.failures + [id])
  }

  lemma RecordStart(res: RunResult, t: Table)
    requires res.replayed == res.failed == 0 && res.failures == [] && res.messageIds == []
    ensures RunRecord([], [], [], res, t, t) && Ids([]) == []
  {}

  lemma RecordTotals(rows: seq<Row>, acks: seq<bool>, ok: seq<bool>, res: RunResult, t: Table, t': Table)
    requires RunRecord(rows, acks, ok, res, t, t')
    ensures res.replayed + res.failed == |rows|
  {
    SelectCounts(rows, ok);
  }

  lemma SentStart(c: Codec, channels: map<Uuid, Channel>, accounts: map<Uuid, Account>)
    ensures Deliveries(c, channels, accounts, []) == [] && Acknowledged(c, channels, accounts, [], []) == []
    ensures Select([], [], true) == []
  {}

  lemma AcknowledgedExtends(c: Codec, channels: map<Uuid, Channel>, accounts: map<Uuid, Account>, rows: seq<Row>,
                            acks: seq<bool>, row: Row, delivered: bool)
    requires |acks| == |rows| && Deliverable(channels, accounts, row)
    requires forall r <- rows :: Deliverable(channels, accounts, r)
    ensures Acknowledged(c, channels, accounts, rows + [row], acks + [delivered]) ==
            Acknowledged(c, channels, accounts, rows, acks)
            + if delivered then [Delivery(c, channels, accounts, row).1] else []
    ensures |Select(rows + [row], acks + [delivered], true)| ==
            |Select(rows, acks, true)| + if delivered then 1 else 0
  {
    ChosenExtend(rows, acks, row, delivered, true);
  }

  lemma SentExtends(c: Codec, channels: map<Uuid, Channel>, accounts: map<Uuid, Account>, rows: seq<Row>, i: nat)
    requires i < |rows| && forall r <- rows :: Deliverable(channels, accounts, r)
    ensures Deliveries(c, channels, accounts, rows[..i + 1]) ==
            Deliveries(c, channels, accounts, rows[..i]) + [Delivery(c, channels, accounts, rows[i])]
    ensures Ids(rows[..i + 1]) == Ids(rows[..i]) + [rows[i].id]
    ensures rows[..i + 1] == rows[..i] + [rows[i]]
  {}

  /** The counts and the table after attempting `rows`: `acks` says which were acknowledged,
      `ok` which were also marked without an error. */
  ghost predicate RunRecord(rows: seq<Row>, acks: seq<bool>, ok: seq<bool>, res: RunResult, t: Table, t': Table) {
    && |acks| == |ok| == |rows|
    && (forall i :: 0 <= i < |rows| && ok[i] ==> acks[i])
    && res.failures == Select(rows, ok, false) && res.failed == |res.failures|
    && res.replayed == |Select(rows, ok, true)|
    && MarkedFired(t, t', Select(rows, ok, true), Select(rows, acks, true))
  }

  lemma MarksExtend(t: Table, t1: Table, t2: Table, id: Uuid, done: seq<Uuid>, acked: seq<Uuid>,
                    delivered: bool, marked: bool)
    requires MarkedFired(t, t1, done, acked) && KeyedById(t1) && id in t
    requires marked ==> delivered && t2 == MarkFired(t1, id)
    requires t2 == t1 || (delivered && t2 == MarkFired(t1, id))
    ensures MarkedFired(t, t2, if marked then done + [id] else done, if delivered then acked + [id] else acked)
  {}

  lemma RecordExtends(rows: seq<Row>, acks: seq<bool>, ok: seq<bool>, res: RunResult, t: Table, t1: Table,
                      row: Row, delivered: bool, marked: bool, t2: Table)
    requires RunRecord(rows, acks, ok, res, t, t1) && KeyedById(t1) && row.id in t
    requires marked ==> delivered && t2 == MarkFired(t1, row.id)
    requires t2 == t1 || (delivered && t2 == MarkFired(t1, row.id))
    ensures RunRecord(rows + [row], acks + [delivered], ok + [marked], Count(res, row.id, marked), t, t2)
  {
    hide Select, MarkedFired, MarkFired;
    SelectExtend(rows, ok, row, marked, true);
    SelectExtend(rows, ok, row, marked, false);
    SelectExtend(rows, acks, row, delivered, true);
    MarksExtend(t, t1, t2, row.id, Select(rows, ok, true), Select(rows, acks, true), delivered, marked);
  }
}
