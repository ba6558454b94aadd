/** The database the services call. Every call may fail, and a failing write may or may
    not have taken effect before the failure was reported. */
module Store {
  import opened Wrappers
  import opened Messages

  datatype DbError = Fault | NoRows | UniqueViolation | ForeignKeyViolation

  datatype EndpointRow = EndpointRow(contact: Uuid, endpoint: string)

  /** `t'` is the table after a write that reported `r`: the write was done, or it was
      refused, or it failed and may have been done all the same. */
  ghost predicate Wrote<T>(r: Result<T, DbError>, t: Table, done: Table, t': Table) {
    match r
    case Ok(_) => t' == done
    case Err(Fault) => t' == t || t' == done
    case Err(_) => t' == t
  }

  /** Whether a call fails, before or after taking effect. */
  datatype Outcome = Done | FailsBefore | FailsAfter

  /** Whether the call failed, counted. */
  function FaultOf<T>(r: Result<T, DbError>): nat {
    if r.Err? && r.error == Fault then 1 else 0
  }

  class Database {
    var messages: Table
    /** contact id to tenant */
    var contacts: map<Uuid, Uuid>
    var endpoints: seq<EndpointRow>
    /** How many calls have failed. */
    ghost var faults: nat

    constructor (messages: Table, contacts: map<Uuid, Uuid>, endpoints: seq<EndpointRow>)
      ensures this.messages == messages && this.contacts == contacts && this.endpoints == endpoints
    {
      this.messages, this.contacts, this.endpoints := messages, contacts, endpoints;
      this.faults := 0;
    }

    /** The fate of a call, which its caller learns only by its answer. */
    method AnyOutcome() returns (o: Outcome)
      modifies this`faults
      ensures faults == old(faults) + if o == Done then 0 else 1
    {
      var fails, after: bool := *, *;
      o := if !fails then Done else if after then FailsAfter else FailsBefore;
      if o != Done {
        faults := faults + 1;
      }
    }

    /** `SELECT count(*) ... WHERE p`. */
    method Count(p: Row -> bool) returns (r: Result<nat, DbError>)
      modifies this`faults
      ensures faults == old(faults) + FaultOf(r)
      ensures r == Ok(|Matching(messages, p)|) || r == Err(Fault)
    {
      var o := AnyOutcome();
      r := if o == Done then Ok(|Matching(messages, p)|) else Err(Fault);
    }

    /** `UPDATE messages SET f WHERE p`, reporting the rows affected. */
    method Update(p: Row -> bool, f: Row -> Row) returns (r: Result<nat, DbError>)
      modifies this`messages, this`faults
      ensures faults == old(faults) + FaultOf(r)
      ensures r.Ok? ==> r.value == |Matching(old(messages), p)|
      ensures r.Err? ==> r.error == Fault
      ensures Wrote(r, old(messages), UpdateWhere(old(messages), p, f), messages)
    {
      var n := |Matching(messages, p)|;
      var o := AnyOutcome();
      if o != FailsBefore {
        messages := UpdateWhere(messages, p, f);
      }
      r := if o == Done then Ok(n) else Err(Fault);
    }

    /** `DELETE FROM messages WHERE p`, refused if a row that stays links to one that goes. */
    method Delete(p: Row -> bool) returns (r: Result<nat, DbError>)
      modifies this`messages, this`faults
      ensures faults == old(faults) + FaultOf(r)
      ensures r.Ok? ==> r.value == |Matching(old(messages), p)|
      ensures r.Err? ==> r.error == Fault || (r.error == ForeignKeyViolation && !DeleteAllowed(old(messages), p))
      ensures r.Ok? ==> DeleteAllowed(old(messages), p)
      ensures Wrote(r, old(messages), DeleteWhere(old(messages), p), messages)
      ensures DeleteAllowed(old(messages), p) || messages == old(messages)
    {
      var n := |Matching(messages, p)|;
      var o := AnyOutcome();
      if !DeleteAllowed(messages, p) {
        return Err(if o == Done then ForeignKeyViolation else Fault);
      }
      if o != FailsBefore {
        messages := DeleteWhere(messages, p);
      }
      r := if o == Done then Ok(n) else Err(Fault);
    }

    /** `CreateInboundMessage`: nothing is inserted, and no row returned, when the key is taken. */
    method CreateInbound(row: Row) returns (r: Result<Uuid, DbError>)
      requires row.account.Some?
      modifies this`messages, this`faults
      ensures faults == old(faults) + FaultOf(r)
      ensures r.Ok? ==> r.value == row.id && row.id !in old(messages)
                        && !KeyTaken(old(messages), row.account.value, row.platformId)
                        && messages == old(messages)[row.id := row]
      ensures FaultOf(r) == 0 ==>
        r == if KeyTaken(old(messages), row.account.value, row.platformId) then Err(NoRows)
             else if row.id in old(messages) then Err(UniqueViolation) else Ok(row.id)
      ensures KeyTaken(old(messages), row.account.value, row.platformId) ==> messages == old(messages)
      ensures r.Err? ==> messages == old(messages)
                         || (row.id !in old(messages) && messages == InsertInbound(old(messages), row))
    {
      var o := AnyOutcome();
      if o == FailsBefore {
        return Err(Fault);
      }
      if KeyTaken(messages, row.account.value, row.platformId) {
        return Err(if o == Done then NoRows else Fault);
      }
      if row.id in messages {
        return Err(if o == Done then UniqueViolation else Fault);
      }
      messages := messages[row.id := row];
      r := if o == Done then Ok(row.id) else Err(Fault);
    }

    /** `CreateOutboundMessage`: refused when the key is taken or the link has no target. */
    method CreateOutbound(row: Row) returns (r: Result<Uuid, DbError>)
      modifies this`messages, this`faults
      ensures faults == old(faults) + FaultOf(r)
      ensures r.Ok? ==> r.value == row.id && messages == old(messages)[row.id := row]
      ensures FaultOf(r) == 0 ==> (r.Ok? <==> row.id !in old(messages) && OutboundAllowed(old(messages), row))
      ensures r.Ok? || messages != old(messages) ==> row.id !in old(messages) && OutboundAllowed(old(messages), row)
      ensures r.Err? ==> messages == old(messages) || (r.error == Fault && messages == old(messages)[row.id := row])
    {
      var o := AnyOutcome();
      if o == FailsBefore {
        return Err(Fault);
      }
      if row.id in messages || (row.account.Some? && KeyTaken(messages, row.account.value, row.platformId)) {
        return Err(if o == Done then UniqueViolation else Fault);
      }
      if row.inReplyTo.Some? && row.inReplyTo.value !in messages {
        return Err(if o == Done then ForeignKeyViolation else Fault);
      }
      messages := messages[row.id := row];
      r := if o == Done then Ok(row.id) else Err(Fault);
    }

    /** `GetMessageForOutbound`. */
    method GetMessage(id: Uuid) returns (r: Result<Row, DbError>)
      modifies this`faults
      ensures faults == old(faults) + FaultOf(r)
      ensures r == (if id in messages then Ok(messages[id]) else Err(NoRows)) || r == Err(Fault)
    {
      var o := AnyOutcome();
      r := if o != Done then Err(Fault) else if id in messages then Ok(messages[id]) else Err(NoRows);
    }

    /** `FindRecentEchoForSender`. */
    method FindRecentEcho(account: Uuid, endpoint: Option<string>, cutoff: int)
      returns (r: Result<(Uuid, string), DbError>)
      modifies this`faults
      ensures faults == old(faults) + FaultOf(r)
      ensures r.Ok? ==> IsRecentEcho(messages, account, endpoint, cutoff, r.value.0)
                        && r.value.1 == messages[r.value.0].bodyText
      ensures r == Err(NoRows) ==> NoRecentEcho(messages, account, endpoint, cutoff)
      ensures r.Err? ==> r.error in {NoRows, Fault}
    {
      var o := AnyOutcome();
      if o != Done {
        return Err(Fault);
      }
      var echoes := set id | id in messages && IsEchoOf(messages[id], account, endpoint, cutoff);
      if echoes == {} {
        assert forall id :: id in messages ==> id !in echoes;
        return Err(NoRows);
      }
      NewestExists(messages, echoes);
      var newest :| newest in echoes && forall id <- echoes :: messages[id].receivedAt <= messages[newest].receivedAt;
      r := Ok((newest, messages[newest].bodyText));
    }

    /** `GetMessageIDByPlatformID`. */
    method GetMessageId(account: Uuid, platformId: string) returns (r: Result<Uuid, DbError>)
      modifies this`faults
      ensures faults == old(faults) + FaultOf(r)
      ensures r.Ok? ==> r.value in messages && HasKey(messages[r.value], account, platformId)
      ensures r.Err? ==> r.error in {NoRows, Fault}
      ensures r == Err(NoRows) ==> !KeyTaken(messages, account, platformId)
    {
      var o := AnyOutcome();
      if o != Done {
        return Err(Fault);
      }
      if !KeyTaken(messages, account, platformId) {
        return Err(NoRows);
      }
      var id :| id in messages && HasKey(messages[id], account, platformId);
      r := Ok(id);
    }

    /** `ListUnfiredForwards`, its WHERE clause given as `p`: take the oldest, over and over. */
    method ListOldest(p: Row -> bool, limit: nat) returns (r: Result<seq<Row>, DbError>)
      requires KeyedById(messages)
      modifies this`faults
      ensures faults == old(faults) + FaultOf(r)
      ensures r.Ok? ==> IsUnfiredListing(messages, p, limit, r.value)
      ensures r.Err? ==> r.error == Fault
    {
      var o := AnyOutcome();
      if o != Done {
        return Err(Fault);
      }
      var rows: seq<Row> := [];
      var left := Matching(messages, p);
      while left != {} && |rows| < limit
        invariant faults == old(faults) && |rows| <= limit && TakenOldest(messages, p, rows, left)
      {
        OldestExists(messages, left);
        var oldest :| oldest in left && forall id <- left :: messages[oldest].receivedAt <= messages[id].receivedAt;
        TakeOldest(messages, p, rows, left, oldest);
        rows := rows + [messages[oldest]];
        left := left - {oldest};
      }
      TakenIsListing(messages, p, rows, left, limit);
      r := Ok(rows);
    }

    /** `ListEndpointsForContact`. */
    method EndpointsOf(contact: Uuid) returns (r: Result<seq<string>, DbError>)
      modifies this`faults
      ensures faults == old(faults) + FaultOf(r)
      ensures r == Ok(EndpointTexts(endpoints, contact)) || r == Err(Fault)
    {
      var o := AnyOutcome();
      r := if o == Done then Ok(EndpointTexts(endpoints, contact)) else Err(Fault);
    }

    /** `DeleteEndpointsForContact`: no tenant filter. */
    method DeleteEndpoints(contact: Uuid) returns (r: Result<nat, DbError>)
      modifies this`endpoints, this`faults
      ensures faults == old(faults) + FaultOf(r)
      ensures r.Ok? ==> endpoints == WithoutContact(old(endpoints), contact)
                        && r.value == |old(endpoints)| - |endpoints|
      ensures r.Err? ==>
        r.error == Fault && (endpoints == old(endpoints) || endpoints == WithoutContact(old(endpoints), contact))
    {
      var kept := WithoutContact(endpoints, contact);
      var n := |endpoints| - |kept|;
      var o := AnyOutcome();
      if o != FailsBefore {
        endpoints := kept;
      }
      r := if o == Done then Ok(n) else Err(Fault);
    }

    /** `DeleteContactRow`: the contact of that tenant, refused while a message names it. */
    method DeleteContact(contact: Uuid, tenant: Uuid) returns (r: Result<nat, DbError>)
      modifies this`contacts, this`faults
      ensures faults == old(faults) + FaultOf(r)
      ensures r.Ok? ==> r.value == (if IsContactOf(old(contacts), contact, tenant) then 1 else 0)
                        && contacts == old(contacts) - (if r.value == 1 then {contact} else {})
      ensures r.Err? ==> contacts == old(contacts) || (r.error == Fault && contacts == old(contacts) - {contact})
      ensures FaultOf(r) == 0 ==>
        (r.Err? <==> IsContactOf(old(contacts), contact, tenant) && IsNamed(messages, contact))
    {
      var o := AnyOutcome();
      if !IsContactOf(contacts, contact, tenant) {
        assert contacts - {} == contacts;
        return if o == Done then Ok(0) else Err(Fault);
      }
      if IsNamed(messages, contact) {
        return Err(if o == Done then ForeignKeyViolation else Fault);
      }
      if o != FailsBefore {
        contacts := contacts - {contact};
      }
      r := if o == Done then Ok(1) else Err(Fault);
    }
  }

  /** `rows` are the oldest matching rows, in order, and `left` the ids of the others. */
  ghost predicate TakenOldest(t: Table, p: Row -> bool, rows: seq<Row>, left: set<Uuid>) {
    && left <= Matching(t, p)
    && (forall i :: 0 <= i < |rows| ==>
          rows[i].id in t && t[rows[i].id] == rows[i] && p(rows[i]) && rows[i].id !in left)
    && (forall i, j :: 0 <= i < j < |rows| ==> rows[i].id != rows[j].id && rows[i].receivedAt <= rows[j].receivedAt)
    && (forall id <- left :: forall i :: 0 <= i < |rows| ==> rows[i].receivedAt <= t[id].receivedAt)
    && (forall id <- Matching(t, p) :: id in left || t[id] in rows)
  }

  lemma TakeOldest(t: Table, p: Row -> bool, rows: seq<Row>, left: set<Uuid>, oldest: Uuid)
    requires KeyedById(t) && TakenOldest(t, p, rows, left) && oldest in left
    requires forall id <- left :: t[oldest].receivedAt <= t[id].receivedAt
    ensures TakenOldest(t, p, rows + [t[oldest]], left - {oldest})
  {
    assert forall id :: id in t ==> (t[id] in rows + [t[oldest]] <==> t[id] in rows || t[id] == t[oldest]);
  }

  lemma TakenIsListing(t: Table, p: Row -> bool, rows: seq<Row>, left: set<Uuid>, limit: nat)
    requires TakenOldest(t, p, rows, left) && (left == {} || |rows| == limit) && |rows| <= limit
    ensures IsUnfiredListing(t, p, limit, rows)
  {
    forall id | id in t && p(t[id]) && t[id] !in rows
      ensures |rows| == limit && forall i :: 0 <= i < |rows| ==> rows[i].receivedAt <= t[id].receivedAt
    {
      assert id in Matching(t, p);
    }
  }

  lemma {:induction false} NewestExists(t: Table, ids: set<Uuid>)
    requires ids != {} && ids <= t.Keys
    ensures exists newest :: newest in ids && forall id <- ids :: t[id].receivedAt <= t[newest].receivedAt
  {
    var first :| first in ids;
    if ids == {first} {
      assert forall id <- ids :: t[id].receivedAt <= t[first].receivedAt;
    } else {
      NewestExists(t, ids - {first});
      var rest :| rest in ids - {first} && forall id <- ids - {first} :: t[id].receivedAt <= t[rest].receivedAt;
      var newest := if t[first].receivedAt <= t[rest].receivedAt then rest else first;
      assert forall id <- ids :: id == first || id in ids - {first};
      assert newest in ids && forall id <- ids :: t[id].receivedAt <= t[newest].receivedAt;
    }
  }

  lemma {:induction false} OldestExists(t: Table, ids: set<Uuid>)
    requires ids != {} && ids <= t.Keys
    ensures exists oldest :: oldest in ids && forall id <- ids :: t[oldest].receivedAt <= t[id].receivedAt
  {
    var first :| first in ids;
    if ids == {first} {
      assert forall id <- ids :: t[first].receivedAt <= t[id].receivedAt;
    } else {
      OldestExists(t, ids - {first});
      var rest :| rest in ids - {first} && forall id <- ids - {first} :: t[rest].receivedAt <= t[id].receivedAt;
      var oldest := if t[first].receivedAt <= t[rest].receivedAt then first else rest;
      assert forall id <- ids :: id == first || id in ids - {first};
      assert oldest in ids && forall id <- ids :: t[oldest].receivedAt <= t[id].receivedAt;
    }
  }

  predicate IsContactOf(contacts: map<Uuid, Uuid>, contact: Uuid, tenant: Uuid) {
    contact in contacts && contacts[contact] == tenant
  }

  predicate NamesContact(r: Row, contact: Uuid) {
    r.senderContact == Some(contact) || r.recipientContact == Some(contact)
  }

  /** Some message names the contact, whatever its tenant. */
  predicate IsNamed(t: Table, contact: Uuid) {
    exists id :: id in t && NamesContact(t[id], contact)
  }

  /** No row that stays links to a row that goes. */
  predicate DeleteAllowed(t: Table, p: Row -> bool) {
    forall id :: id in t && !p(t[id]) && t[id].inReplyTo.Some? && t[id].inReplyTo.value in t ==>
      !p(t[t[id].inReplyTo.value])
  }

  function EndpointTexts(rows: seq<EndpointRow>, contact: Uuid): (texts: seq<string>)
    ensures forall e :: e in texts <==> exists row <- rows :: row.contact == contact && row.endpoint == e
  {
    if rows == [] then []
    else (if rows[0].contact == contact then [rows[0].endpoint] else []) + EndpointTexts(rows[1..], contact)
  }

  function WithoutContact(rows: seq<EndpointRow>, contact: Uuid): (r: seq<EndpointRow>)
    ensures |r| <= |rows|
    ensures forall e :: multiset(r)[e] == if e.contact == contact then 0 else multiset(rows)[e]
  {
    if rows == [] then []
    else
      assert rows == [rows[0]] + rows[1..];
      (if rows[0].contact == contact then [] else [rows[0]]) + WithoutContact(rows[1..], contact)
  }
}
