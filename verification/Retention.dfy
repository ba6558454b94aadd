/** Purge and erasure of `internal/retention`. */
module Retention {
  import opened Wrappers
  import opened Alphabet
  import opened Messages
  import opened Decision
  import opened Store

  datatype Error = Invalid | NotFound | Db(error: DbError)

  /** Whether the operation was stopped by a failed call. */
  function FailureOf<T>(r: Result<T, Error>): nat {
    if r.Err? && r.error == Db(Fault) then 1 else 0
  }

  const MIN_RETENTION_DAYS := 7
  const SECONDS_PER_DAY := 86400

  // ----- Purge -----

  datatype PurgeResult = PurgeResult(dryRun: bool, olderThanDays: int, cutoff: int, matched: nat, deleted: nat)

  /** The table with the tenant's rows older than the cutoff gone, and the tenant's links
      to them cleared. */
  function AfterPurge(t: Table, tenant: Uuid, cutoff: int): Table {
    map id | id in t && !OlderThan(tenant, cutoff)(t[id]) ::
      if RepliesToOlder(t, tenant, cutoff)(t[id]) then ClearLink(t[id]) else t[id]
  }

  function LinksCleared(t: Table, tenant: Uuid, cutoff: int): Table {
    UpdateWhere(t, RepliesToOlder(t, tenant, cutoff), ClearLink)
  }

  /** Run alone, a purge reports as deleted exactly what it matched, and never fails on the
      self-referential key when every link stays inside its tenant. Stopped by a failing
      call, it has done nothing, cleared the links, or finished. */
  method Purge(db: Database, tenant: Uuid, olderThanDays: int, dryRun: bool, now: int)
    returns (r: Result<PurgeResult, Error>)
    modifies db`messages, db`faults
    ensures db.faults == old(db.faults) + FailureOf(r)
    ensures olderThanDays < 7 <==> r == Err(Invalid)
    ensures r.Ok? ==>
      var cutoff := now - olderThanDays * 86400;
      && r.value.cutoff == cutoff && r.value.dryRun == dryRun && r.value.olderThanDays == olderThanDays
      && r.value.matched == |Matching(old(db.messages), OlderThan(tenant, cutoff))|
      && r.value.deleted == (if dryRun then 0 else r.value.matched)
      && db.messages == if dryRun then old(db.messages) else AfterPurge(old(db.messages), tenant, cutoff)
    ensures r.Err? ==>
      var cutoff := now - olderThanDays * 86400;
      db.messages in {old(db.messages), LinksCleared(old(db.messages), tenant, cutoff),
                      AfterPurge(old(db.messages), tenant, cutoff)}
    ensures dryRun ==> db.messages == old(db.messages)
    ensures LinksSound(old(db.messages)) ==> LinksSound(db.messages) && r != Err(Db(ForeignKeyViolation))
    ensures FailureOf(r) == 0 && olderThanDays >= 7 ==>
      var cutoff := now - olderThanDays * 86400;
      (r.Ok? <==> dryRun || DeleteAllowed(LinksCleared(old(db.messages), tenant, cutoff), OlderThan(tenant, cutoff)))
  {
    if olderThanDays < MIN_RETENTION_DAYS {
      return Err(Invalid);
    }
    var cutoff := now - olderThanDays * SECONDS_PER_DAY;
    var older := OlderThan(tenant, cutoff);
    ghost var before := db.messages;
    var matched := db.Count(older);
    if matched.Err? {
      return Err(Db(matched.error));
    }
    NothingOlder(before, tenant, cutoff);
    if dryRun || matched.value == 0 {
      return Ok(PurgeResult(dryRun, olderThanDays, cutoff, matched.value, 0));
    }
    PurgeSteps(before, tenant, cutoff);
    var cleared := db.Update(RepliesToOlder(db.messages, tenant, cutoff), ClearLink);
    if cleared.Err? {
      return Err(Db(cleared.error));
    }
    var deleted := db.Delete(older);
    if deleted.Err? {
      return Err(Db(deleted.error));
    }
    r := Ok(PurgeResult(dryRun, olderThanDays, cutoff, matched.value, deleted.value));
  }

  lemma NothingOlder(t: Table, tenant: Uuid, cutoff: int)
    ensures |Matching(t, OlderThan(tenant, cutoff))| == 0 ==>
              && AfterPurge(t, tenant, cutoff) == t
              && DeleteAllowed(LinksCleared(t, tenant, cutoff), OlderThan(tenant, cutoff))
  {
    if |Matching(t, OlderThan(tenant, cutoff))| == 0 {
      assert forall id :: id in t ==> id !in Matching(t, OlderThan(tenant, cutoff));
      ClearedRows(t, tenant, cutoff);
    }
  }

  /** Clearing first makes the delete possible, and the two together are the purge. */
  lemma PurgeSteps(t: Table, tenant: Uuid, cutoff: int)
    ensures var older, cleared := OlderThan(tenant, cutoff), LinksCleared(t, tenant, cutoff);
            && DeleteWhere(cleared, older) == AfterPurge(t, tenant, cutoff)
            && Matching(cleared, older) == Matching(t, older)
            && (LinksSound(t) ==> DeleteAllowed(cleared, older) && LinksSound(cleared)
                                  && LinksSound(AfterPurge(t, tenant, cutoff)))
  {
    hide LinksCleared, LinksSound, DeleteAllowed;
    var cleared, older := LinksCleared(t, tenant, cutoff), OlderThan(tenant, cutoff);
    ClearedRows(t, tenant, cutoff);
    assert DeleteWhere(cleared, older) == AfterPurge(t, tenant, cutoff);
    if LinksSound(t) {
      ClearedLinks(t, tenant, cutoff);
      DeleteKeepsLinks(cleared, older);
    }
  }

  lemma ClearedRows(t: Table, tenant: Uuid, cutoff: int)
    ensures var cleared := LinksCleared(t, tenant, cutoff);
            && cleared.Keys == t.Keys
            && forall id :: id in t ==>
                 && cleared[id] == (if RepliesToOlder(t, tenant, cutoff)(t[id]) then ClearLink(t[id]) else t[id])
                 && OlderThan(tenant, cutoff)(cleared[id]) == OlderThan(tenant, cutoff)(t[id])
  {}

  /** With sound links no row that stays links to one that goes, once the links are cleared. */
  lemma ClearedLinks(t: Table, tenant: Uuid, cutoff: int)
    requires LinksSound(t)
    ensures DeleteAllowed(LinksCleared(t, tenant, cutoff), OlderThan(tenant, cutoff))
    ensures LinksSound(LinksCleared(t, tenant, cutoff))
  {
    ClearedRows(t, tenant, cutoff);
    hide LinksCleared;
    var cleared, older := LinksCleared(t, tenant, cutoff), OlderThan(tenant, cutoff);
    forall id | id in cleared && cleared[id].inReplyTo.Some?
      ensures cleared[id] == t[id] && cleared[id].inReplyTo.value in cleared
      ensures var target := cleared[id].inReplyTo.value;
              cleared[target].tenant == cleared[id].tenant && !older(cleared[target])
    {
      assert !RepliesToOlder(t, tenant, cutoff)(t[id]);
      var target := t[id].inReplyTo.value;
      assert t[target].tenant == t[id].tenant && !older(t[target]);
    }
  }

  lemma DeleteKeepsLinks(t: Table, p: Row -> bool)
    requires LinksSound(t) && DeleteAllowed(t, p)
    ensures LinksSound(DeleteWhere(t, p))
  {}

  /** Purging removes exactly the tenant's rows older than the cutoff; a row that stays is
      changed at most by losing its link, and loses it only if the link's target went. */
  lemma PurgeIsExact(t: Table, tenant: Uuid, cutoff: int)
    requires LinksSound(t)
    ensures var t' := AfterPurge(t, tenant, cutoff);
            && LinksSound(t')
            && (forall id :: id in t' <==> id in t && !(t[id].tenant == tenant && t[id].receivedAt < cutoff))
            && (forall id :: id in t' ==>
                  t'[id] == if t[id].inReplyTo.Some? && t[id].inReplyTo.value !in t' then t[id].(inReplyTo := None)
                            else t[id])
  {
    PurgeSteps(t, tenant, cutoff);
  }

  /** The delete is possible after the clearing exactly when no other tenant's row links
      to a row that goes. */
  lemma PurgePossibleExactlyWhen(t: Table, tenant: Uuid, cutoff: int)
    requires ForeignKeyHolds(t)
    ensures DeleteAllowed(LinksCleared(t, tenant, cutoff), OlderThan(tenant, cutoff)) <==>
            forall id :: id in t && t[id].tenant != tenant && t[id].inReplyTo.Some? ==>
              !OlderThan(tenant, cutoff)(t[t[id].inReplyTo.value])
  {
    var cleared, older := LinksCleared(t, tenant, cutoff), OlderThan(tenant, cutoff);
    ClearedRows(t, tenant, cutoff);
    hide LinksCleared;
    forall id | id in t && t[id].tenant != tenant && t[id].inReplyTo.Some? && DeleteAllowed(cleared, older)
      ensures !older(t[t[id].inReplyTo.value])
    {
      assert cleared[id] == t[id] && !older(cleared[id]);
    }
  }

  // ----- Erasure -----

  datatype ErasureResult = ErasureResult(
    dryRun: bool, endpoints: seq<string>, matched: nat, redacted: nat, endpointsDeleted: nat, contactDeleted: bool)

  /** The endpoints that are not blank once trimmed, in order. */
  function NonBlank(u: Unicode, eps: seq<string>): (es: seq<string>)
    ensures forall e :: e in es <==> e in eps && !AllSpace(u, e)
  {
    if eps == [] then []
    else
      assert eps == eps[..|eps| - 1] + [eps[|eps| - 1]];
      NonBlank(u, eps[..|eps| - 1]) + if AllSpace(u, eps[|eps| - 1]) then [] else [eps[|eps| - 1]]
  }

  function EndpointCount(t: Table, tenant: Uuid, e: string): nat {
    |Matching(t, FromEndpoint(tenant, e))|
  }

  /** The messages counted for the endpoints, each endpoint as often as it is listed. */
  function MatchedSum(t: Table, tenant: Uuid, es: seq<string>): nat {
    if es == [] then 0
    else MatchedSum(t, tenant, es[..|es| - 1]) + EndpointCount(t, tenant, es[|es| - 1])
  }

  /** The messages redacted for the endpoints: a repeated endpoint finds nothing left. */
  function RedactedSum(t: Table, tenant: Uuid, es: seq<string>): nat {
    if es == [] then 0
    else RedactedSum(t, tenant, es[..|es| - 1])
         + if es[|es| - 1] in es[..|es| - 1] then 0 else EndpointCount(t, tenant, es[|es| - 1])
  }

  predicate FromAny(r: Row, tenant: Uuid, es: seq<string>) {
    r.tenant == tenant && r.senderEndpoint.Some? && r.senderEndpoint.value in es
  }

  function RedactAll(t: Table, tenant: Uuid, es: seq<string>): Table {
    map id | id in t :: if FromAny(t[id], tenant, es) then Redact(t[id]) else t[id]
  }

  /** What erasure makes of a row: redacted if it is the contact's or from one of the
      endpoints, and then detached if it is the contact's. */
  function ErasedRow(r: Row, tenant: Uuid, contact: Uuid, es: seq<string>): Row {
    if OfContact(tenant, contact)(r) then Detach(Redact(r))
    else if FromAny(r, tenant, es) then Redact(r)
    else r
  }

  function Erased(t: Table, tenant: Uuid, contact: Uuid, es: seq<string>): Table {
    map id | id in t :: ErasedRow(t[id], tenant, contact, es)
  }

  /** Every row is as it was, redacted, or fully erased; rows erasure does not touch are as
      they were. */
  ghost predicate PartlyErased(t: Table, t': Table, tenant: Uuid, contact: Uuid, es: seq<string>) {
    && t'.Keys == t.Keys
    && forall id :: id in t ==>
         t'[id] == t[id] || t'[id] == ErasedRow(t[id], tenant, contact, es)
         || (t'[id] == Redact(t[id]) && ErasedRow(t[id], tenant, contact, es) == Detach(Redact(t[id])))
  }

  /** The endpoints done so far redacted. */
  ghost predicate SomeRedacted(t: Table, t': Table, tenant: Uuid, es: seq<string>) {
    exists done :: done <= es && t' == RedactAll(t, tenant, done)
  }

  /** Where an erasure may stop: some first endpoints redacted; all of them, and the contact's
      messages; or all of it done. */
  ghost predicate StoppedErasing(t: Table, t': Table, tenant: Uuid, contact: Uuid, es: seq<string>) {
    || SomeRedacted(t, t', tenant, es)
    || t' == UpdateWhere(RedactAll(t, tenant, es), OfContact(tenant, contact), Redact)
    || t' == Erased(t, tenant, contact, es)
  }

  lemma StoppedIsPartly(t: Table, t': Table, tenant: Uuid, contact: Uuid, es: seq<string>)
    requires StoppedErasing(t, t', tenant, contact, es)
    ensures PartlyErased(t, t', tenant, contact, es)
  {
    ErasureSteps(t, tenant, contact, es);
    hide Redact, Detach, Erased, UpdateWhere;
    if SomeRedacted(t, t', tenant, es) {
      var done :| done <= es && t' == RedactAll(t, tenant, done);
      SomeIsPartly(t, tenant, contact, done, es);
    }
  }

  lemma SomeIsPartly(t: Table, tenant: Uuid, contact: Uuid, done: seq<string>, es: seq<string>)
    requires done <= es
    ensures PartlyErased(t, RedactAll(t, tenant, done), tenant, contact, es)
  {
    hide Redact, Detach;
    assert forall e <- done :: e in es;
  }

  /** After the endpoints, each remaining statement is done or not. */
  lemma EraseStops(t: Table, t1: Table, tenant: Uuid, contact: Uuid, es: seq<string>)
    requires SomeRedacted(t, t1, tenant, es)
    ensures StoppedErasing(t, t1, tenant, contact, es)
    ensures StoppedErasing(t, UpdateWhere(RedactAll(t, tenant, es), OfContact(tenant, contact), Redact),
                           tenant, contact, es)
    ensures StoppedErasing(t, Erased(t, tenant, contact, es), tenant, contact, es)
  {}

  lemma NothingRedacted(t: Table, tenant: Uuid, contact: Uuid, es: seq<string>)
    ensures StoppedErasing(t, t, tenant, contact, es)
  {
    assert [] <= es && t == RedactAll(t, tenant, []);
    assert SomeRedacted(t, t, tenant, es);
  }

  /** No message of any tenant is from or to the contact. */
  predicate NobodyNames(t: Table, contact: Uuid) {
    forall id :: id in t ==> Some(contact) !in {t[id].senderContact, t[id].recipientContact}
  }

  lemma NobodyIsNamed(t: Table, contact: Uuid)
    ensures NobodyNames(t, contact) <==> !IsNamed(t, contact)
  {}

  method Erase(u: Unicode, db: Database, tenant: Uuid, contact: Uuid, dryRun: bool)
    returns (r: Result<ErasureResult, Error>)
    modifies db`messages, db`endpoints, db`contacts, db`faults
    ensures db.faults == old(db.faults) + FailureOf(r)
    ensures var es := NonBlank(u, EndpointTexts(old(db.endpoints), contact));
            var t := old(db.messages);
            && (r.Ok? ==>
                  && r.value.dryRun == dryRun && r.value.endpoints == es
                  && r.value.matched == |Matching(t, OfContact(tenant, contact))| + MatchedSum(t, tenant, es)
                  && r.value.contactDeleted == !dryRun)
            && (r.Ok? && !dryRun ==>
                  && r.value.redacted == |Matching(t, OfContact(tenant, contact))| + RedactedSum(t, tenant, es)
                  && db.messages == Erased(t, tenant, contact, es)
                  && db.endpoints == WithoutContact(old(db.endpoints), contact)
                  && r.value.endpointsDeleted == |old(db.endpoints)| - |db.endpoints|
                  && r.value.redacted ==
                     |set id | id in t && t[id].tenant == tenant
                               && Some(contact) in {t[id].senderContact, t[id].recipientContact}|
                     + |set id | id in t && t[id].tenant == tenant && FromContact(u, old(db.endpoints), contact, t[id])|
                  && ErasedOnly(u, old(db.endpoints), t, db.messages, tenant, contact)
                  && contact in old(db.contacts) && old(db.contacts)[contact] == tenant
                  && db.contacts == old(db.contacts) - {contact})
            && (r == Err(NotFound) ==> db.messages == Erased(t, tenant, contact, es) && db.contacts == old(db.contacts))
            && StoppedErasing(t, db.messages, tenant, contact, es)
            && (FailureOf(r) == 0 ==>
                  && (r == Err(NotFound) <==>
                        !dryRun && (contact !in old(db.contacts) || old(db.contacts)[contact] != tenant))
                  && (r.Ok? <==>
                        || dryRun
                        || (&& contact in old(db.contacts) && old(db.contacts)[contact] == tenant
                            && NobodyNames(Erased(t, tenant, contact, es), contact))))
    ensures db.endpoints in {old(db.endpoints), WithoutContact(old(db.endpoints), contact)}
    ensures db.contacts in {old(db.contacts), old(db.contacts) - {contact}}
    ensures dryRun ==> unchanged(db`messages) && unchanged(db`endpoints) && unchanged(db`contacts)
  {
    hide StoppedErasing, SomeRedacted, Redact, Detach, ErasedRow, IsNamed, OfContact, UpdateWhere;
    hide RedactAll, Erased, NonBlank, MatchedSum, RedactedSum, WithoutContact, EndpointTexts, Matching, PartlyErased;
    hide ErasedOnly, FromContact, NobodyNames;
    ghost var t := db.messages;
    NothingRedacted(t, tenant, contact, NonBlank(u, EndpointTexts(db.endpoints, contact)));
    var byContact := OfContact(tenant, contact);
    var matched := db.Count(byContact);
    if matched.Err? {
      return Err(Db(matched.error));
    }
    var eps := db.EndpointsOf(contact);
    if eps.Err? {
      return Err(Db(eps.error));
    }
    var endpoints, endpointMatches, failure := CountEndpoints(u, db, tenant, eps.value);
    if failure.Some? {
      return Err(Db(failure.value));
    }
    if dryRun {
      return Ok(ErasureResult(true, endpoints, matched.value + endpointMatches, 0, 0, false));
    }
    ghost var es := endpoints;
    var redactedByEndpoint, failure' := RedactEndpoints(u, db, tenant, eps.value);
    EraseStops(t, db.messages, tenant, contact, es);
    if failure'.Some? {
      return Err(Db(failure'.value));
    }
    ErasureSteps(t, tenant, contact, es);
    var redacted := db.Update(byContact, Redact);
    if redacted.Err? {
      return Err(Db(redacted.error));
    }
    var detached := db.Update(byContact, Detach);
    if detached.Err? {
      return Err(Db(detached.error));
    }
    var deleted := db.DeleteEndpoints(contact);
    if deleted.Err? {
      return Err(Db(deleted.error));
    }
    NobodyIsNamed(db.messages, contact);
    var n := db.DeleteContact(contact, tenant);
    if n.Err? {
      return Err(Db(n.error));
    }
    if n.value == 0 {
      assert db.contacts == old(db.contacts);
      return Err(NotFound);
    }
    ErasesOnlyTheContacts(u, old(db.endpoints), t, tenant, contact);
    RedactedForContact(u, old(db.endpoints), t, tenant, contact);
    ContactMessages(t, tenant, contact);
    r := Ok(ErasureResult(false, endpoints, matched.value + endpointMatches,
                          redactedByEndpoint + redacted.value, deleted.value, true));
  }

  /** The first loop over the contact's endpoints: list and count. */
  method CountEndpoints(u: Unicode, db: Database, tenant: Uuid, eps: seq<string>)
    returns (endpoints: seq<string>, matched: nat, failure: Option<DbError>)
    modifies db`faults
    ensures failure in {None, Some(Fault)} && db.faults == old(db.faults) + if failure.Some? then 1 else 0
    ensures failure.None? ==> endpoints == NonBlank(u, eps) && matched == MatchedSum(db.messages, tenant, endpoints)
  {
    endpoints, matched, failure := [], 0, None;
    for i := 0 to |eps|
      invariant db.faults == old(db.faults)
      invariant endpoints == NonBlank(u, eps[..i]) && matched == MatchedSum(db.messages, tenant, endpoints)
    {
      var e := eps[i];
      assert eps[..i + 1][..i] == eps[..i];
      if AllSpace(u, e) {
        continue;
      }
      assert (endpoints + [e])[..|endpoints|] == endpoints;
      endpoints := endpoints + [e];
      var n := db.Count(FromEndpoint(tenant, e));
      if n.Err? {
        failure := Some(n.error);
        return;
      }
      matched := matched + n.value;
    }
    assert eps[..|eps|] == eps;
  }

  /** The second loop: redact each endpoint's messages. */
  method RedactEndpoints(u: Unicode, db: Database, tenant: Uuid, eps: seq<string>)
    returns (redacted: nat, failure: Option<DbError>)
    modifies db`messages, db`faults
    ensures failure in {None, Some(Fault)} && db.faults == old(db.faults) + if failure.Some? then 1 else 0
    ensures failure.None? ==>
      && db.messages == RedactAll(old(db.messages), tenant, NonBlank(u, eps))
      && redacted == RedactedSum(old(db.messages), tenant, NonBlank(u, eps))
    ensures SomeRedacted(old(db.messages), db.messages, tenant, NonBlank(u, eps))
  {
    redacted, failure := 0, None;
    ghost var t := db.messages;
    ghost var done: seq<string> := [];
    for i := 0 to |eps|
      invariant db.faults == old(db.faults) && done == NonBlank(u, eps[..i])
      invariant db.messages == RedactAll(t, tenant, done) && redacted == RedactedSum(t, tenant, done)
    {
      var e := eps[i];
      assert eps[..i + 1][..i] == eps[..i];
      if AllSpace(u, e) {
        continue;
      }
      RedactOneMore(t, tenant, done, e);
      NonBlankGrows(u, eps, i);
      var n := db.Update(FromEndpoint(tenant, e), Redact);
      if n.Err? {
        failure := Some(n.error);
        return;
      }
      redacted := redacted + n.value;
      done := done + [e];
    }
    assert eps[..|eps|] == eps;
  }

  /** The endpoints kept so far, and the next one, are the first of those kept in all. */
  lemma {:induction false} NonBlankGrows(u: Unicode, eps: seq<string>, i: nat)
    requires i < |eps|
    ensures NonBlank(u, eps[..i]) <= NonBlank(u, eps)
    ensures !AllSpace(u, eps[i]) ==> NonBlank(u, eps[..i]) + [eps[i]] <= NonBlank(u, eps)
    decreases |eps|
  {
    var init := eps[..|eps| - 1];
    if i < |init| {
      assert init[..i] == eps[..i];
      NonBlankGrows(u, init, i);
    }
  }

  lemma RedactOneMore(t: Table, tenant: Uuid, es: seq<string>, e: string)
    ensures UpdateWhere(RedactAll(t, tenant, es), FromEndpoint(tenant, e), Redact) == RedactAll(t, tenant, es + [e])
    ensures |Matching(RedactAll(t, tenant, es), FromEndpoint(tenant, e))| ==
            if e in es then 0 else EndpointCount(t, tenant, e)
    ensures RedactedSum(t, tenant, es + [e]) ==
            RedactedSum(t, tenant, es) + |Matching(RedactAll(t, tenant, es), FromEndpoint(tenant, e))|
  {
    var redacted := RedactAll(t, tenant, es);
    var p := FromEndpoint(tenant, e);
    if e in es {
      assert Matching(redacted, p) == {};
    } else {
      assert Matching(redacted, p) == Matching(t, p);
    }
    assert (es + [e])[..|es|] == es;
  }

  lemma RedactTwiceIsOnce(r: Row)
    ensures Redact(Redact(r)) == Redact(r)
  {}

  lemma ErasureSteps(t: Table, tenant: Uuid, contact: Uuid, es: seq<string>)
    ensures var p := OfContact(tenant, contact);
            var t1 := RedactAll(t, tenant, es);
            var t2 := UpdateWhere(t1, p, Redact);
            && Matching(t1, p) == Matching(t, p) == Matching(t2, p)
            && UpdateWhere(t2, p, Detach) == Erased(t, tenant, contact, es)
            && PartlyErased(t, t1, tenant, contact, es) && PartlyErased(t, t2, tenant, contact, es)
            && PartlyErased(t, Erased(t, tenant, contact, es), tenant, contact, es)
  {
    hide Redact, Detach;
    var p := OfContact(tenant, contact);
    var t1 := RedactAll(t, tenant, es);
    var t2 := UpdateWhere(t1, p, Redact);
    forall id | id in t
      ensures p(t1[id]) == p(t[id]) == p(t2[id])
      ensures t2[id] == if p(t[id]) || FromAny(t[id], tenant, es) then Redact(t[id]) else t[id]
    {
      RedactKeepsContacts(t[id]);
      RedactTwiceIsOnce(t[id]);
    }
  }

  lemma RedactKeepsContacts(r: Row)
    ensures Redact(r).senderContact == r.senderContact && Redact(r).recipientContact == r.recipientContact
    ensures Redact(r).tenant == r.tenant
  {}

  // ----- What erasure achieves -----

  /** Afterwards no message of the tenant names the contact or comes from one of the
      endpoints; a touched row keeps its id, time, action and routing but none of the
      personal columns; every other row is as it was. */
  lemma ErasureIsComplete(t: Table, tenant: Uuid, contact: Uuid, es: seq<string>)
    ensures var t' := Erased(t, tenant, contact, es);
            && t'.Keys == t.Keys
            && (forall id :: id in t' && t'[id].tenant == tenant ==>
                  && !NamesContact(t'[id], contact)
                  && (t'[id].senderEndpoint.Some? ==> t'[id].senderEndpoint.value !in es))
            && (forall id :: id in t && (OfContact(tenant, contact)(t[id]) || FromAny(t[id], tenant, es)) ==>
                  && t'[id].id == t[id].id && t'[id].receivedAt == t[id].receivedAt
                  && t'[id].action == t[id].action && t'[id].channel == t[id].channel
                  && t'[id].account == t[id].account && t'[id].direction == t[id].direction
                  && t'[id].senderEndpoint == None && t'[id].bodyText == "" && t'[id].attachments == None
                  && t'[id].location == None && t'[id].raw == RedactedPayload)
            && (forall id :: id in t && !OfContact(tenant, contact)(t[id]) && !FromAny(t[id], tenant, es) ==>
                  t'[id] == t[id])
            && (LinksSound(t) ==> LinksSound(t'))
  {
    ErasureKeepsLinks(t, tenant, contact, es);
    hide LinksSound;
  }

  lemma ErasureKeepsLinks(t: Table, tenant: Uuid, contact: Uuid, es: seq<string>)
    ensures LinksSound(t) ==> LinksSound(Erased(t, tenant, contact, es))
  {
    hide ErasedRow;
    forall id | id in t
      ensures Erased(t, tenant, contact, es)[id].inReplyTo == t[id].inReplyTo
      ensures Erased(t, tenant, contact, es)[id].tenant == t[id].tenant
    {
      ErasureKeepsLink(t[id], tenant, contact, es);
    }
  }

  lemma ErasureKeepsLink(r: Row, tenant: Uuid, contact: Uuid, es: seq<string>)
    ensures ErasedRow(r, tenant, contact, es).inReplyTo == r.inReplyTo
    ensures ErasedRow(r, tenant, contact, es).tenant == r.tenant
  {
    hide FromAny, OfContact;
  }

  /** No more is redacted than was matched. */
  lemma {:induction false} RedactedAtMostMatched(t: Table, tenant: Uuid, es: seq<string>)
    ensures RedactedSum(t, tenant, es) <= MatchedSum(t, tenant, es)
  {
    if es != [] {
      RedactedAtMostMatched(t, tenant, es[..|es| - 1]);
    }
  }

  /** The two agree exactly when no endpoint that has messages is listed twice. */
  lemma {:induction false} RedactedIsMatchedExactlyWhen(t: Table, tenant: Uuid, es: seq<string>)
    ensures RedactedSum(t, tenant, es) == MatchedSum(t, tenant, es) <==>
            forall i, j :: 0 <= i < j < |es| && es[i] == es[j] ==> EndpointCount(t, tenant, es[j]) == 0
  {
    if es != [] {
      var init, last := es[..|es| - 1], es[|es| - 1];
      RedactedIsMatchedExactlyWhen(t, tenant, init);
      RedactedAtMostMatched(t, tenant, init);
      assert last in init ==> exists i :: 0 <= i < |es| - 1 && es[i] == last;
    }
  }

  function FromAnyOf(t: Table, tenant: Uuid, es: seq<string>): set<Uuid> {
    set id | id in t && t[id].tenant == tenant && t[id].senderEndpoint.Some? && t[id].senderEndpoint.value in es
  }

  lemma OneMoreOf(t: Table, tenant: Uuid, es: seq<string>, e: string)
    ensures FromAnyOf(t, tenant, es + [e]) == FromAnyOf(t, tenant, es) + Matching(t, FromEndpoint(tenant, e))
    ensures if e in es then Matching(t, FromEndpoint(tenant, e)) <= FromAnyOf(t, tenant, es)
            else FromAnyOf(t, tenant, es) !! Matching(t, FromEndpoint(tenant, e))
  {}

  /** What is redacted for the endpoints is every message that comes from one of them, each
      counted once, however often its endpoint is listed. */
  lemma {:induction false} RedactedIsEveryMessage(t: Table, tenant: Uuid, es: seq<string>)
    ensures RedactedSum(t, tenant, es) == |FromAnyOf(t, tenant, es)|
  {
    if es == [] {
      assert FromAnyOf(t, tenant, es) == {};
    } else {
      var init, last := es[..|es| - 1], es[|es| - 1];
      RedactedIsEveryMessage(t, tenant, init);
      assert es == init + [last];
      OneMoreOf(t, tenant, init, last);
      hide FromAnyOf, Matching;
      var before, more := FromAnyOf(t, tenant, init), Matching(t, FromEndpoint(tenant, last));
      assert last in init ==> before + more == before;
    }
  }

  // ----- Whose messages are erased -----

  /** The message's sender is an endpoint of the contact, and not a blank one. */
  predicate FromContact(u: Unicode, rows: seq<EndpointRow>, contact: Uuid, r: Row) {
    exists e <- rows :: e.contact == contact && !AllSpace(u, e.endpoint) && r.senderEndpoint == Some(e.endpoint)
  }

  /** Exactly the tenant's messages that name the contact or come from one of its endpoints
      are stripped of what is personal, and flagged; those that name it no longer do, and
      nothing else of them, or of any other message, is changed. */
  ghost predicate ErasedOnly(u: Unicode, rows: seq<EndpointRow>, t: Table, t': Table, tenant: Uuid, contact: Uuid) {
    && t'.Keys == t.Keys
    && forall id :: id in t ==>
         var r := t[id];
         var named := r.tenant == tenant && Some(contact) in {r.senderContact, r.recipientContact};
         var from := r.tenant == tenant && FromContact(u, rows, contact, r);
         if !named && !from then t'[id] == r
         else t'[id] == r.(senderEndpoint := None, bodyText := "", attachments := None, location := None,
                           raw := RedactedPayload,
                           parsed := Some((if r.parsed.Some? then r.parsed.value else EMPTY_DOC).(redacted := true)),
                           senderContact := if named then None else r.senderContact,
                           recipientContact := if named then None else r.recipientContact)
  }

  lemma ErasesOnlyTheContacts(u: Unicode, rows: seq<EndpointRow>, t: Table, tenant: Uuid, contact: Uuid)
    ensures ErasedOnly(u, rows, t, Erased(t, tenant, contact, NonBlank(u, EndpointTexts(rows, contact))),
                       tenant, contact)
  {
    hide AllSpace;
    var es := NonBlank(u, EndpointTexts(rows, contact));
    forall id | id in t
      ensures FromAny(t[id], tenant, es) <==> t[id].tenant == tenant && FromContact(u, rows, contact, t[id])
    {
      FromAnyOfContact(u, rows, t[id], tenant, contact);
    }
    hide FromContact, FromAny, NonBlank, EndpointTexts;
  }

  lemma ContactMessages(t: Table, tenant: Uuid, contact: Uuid)
    ensures Matching(t, OfContact(tenant, contact)) ==
            set id | id in t && t[id].tenant == tenant && Some(contact) in {t[id].senderContact, t[id].recipientContact}
  {}

  lemma FromAnyOfContact(u: Unicode, rows: seq<EndpointRow>, r: Row, tenant: Uuid, contact: Uuid)
    ensures FromAny(r, tenant, NonBlank(u, EndpointTexts(rows, contact))) <==>
            r.tenant == tenant && FromContact(u, rows, contact, r)
  {
    hide AllSpace;
  }

  /** The messages redacted: those naming the contact, and those from its endpoints, a message
      that is both being counted as both. */
  lemma RedactedForContact(u: Unicode, rows: seq<EndpointRow>, t: Table, tenant: Uuid, contact: Uuid)
    ensures RedactedSum(t, tenant, NonBlank(u, EndpointTexts(rows, contact))) ==
            |set id | id in t && t[id].tenant == tenant && FromContact(u, rows, contact, t[id])|
  {
    hide AllSpace, FromContact, NonBlank, EndpointTexts, RedactedSum;
    var es := NonBlank(u, EndpointTexts(rows, contact));
    RedactedIsEveryMessage(t, tenant, es);
    forall id | id in t
      ensures FromAny(t[id], tenant, es) <==> t[id].tenant == tenant && FromContact(u, rows, contact, t[id])
    {
      FromAnyOfContact(u, rows, t[id], tenant, contact);
    }
    assert FromAnyOf(t, tenant, es) ==
           set id | id in t && t[id].tenant == tenant && FromContact(u, rows, contact, t[id]);
  }

  // ----- Erasing one endpoint -----

  method EraseEndpoint(u: Unicode, db: Database, tenant: Uuid, endpoint: string, dryRun: bool)
    returns (r: Result<ErasureResult, Error>)
    modifies db`messages, db`faults
    ensures db.faults == old(db.faults) + FailureOf(r)
    ensures AllSpace(u, endpoint) <==> r == Err(Invalid)
    ensures r.Err? ==> r.error in {Invalid, Db(Fault)}
    ensures r.Ok? ==>
      && r.value.matched == EndpointCount(old(db.messages), tenant, endpoint)
      && r.value.redacted == (if dryRun then 0 else r.value.matched)
      && db.messages == if dryRun then old(db.messages) else RedactAll(old(db.messages), tenant, [endpoint])
    ensures r.Err? ==> db.messages in {old(db.messages), RedactAll(old(db.messages), tenant, [endpoint])}
    ensures dryRun ==> db.messages == old(db.messages)
  {
    if AllSpace(u, endpoint) {
      return Err(Invalid);
    }
    ghost var t := db.messages;
    assert RedactAll(t, tenant, []) == t;
    RedactOneMore(t, tenant, [], endpoint);
    assert [] + [endpoint] == [endpoint];
    var matched := db.Count(FromEndpoint(tenant, endpoint));
    if matched.Err? {
      return Err(Db(matched.error));
    }
    if matched.value == 0 {
      assert forall id :: id in t ==> id !in Matching(t, FromEndpoint(tenant, endpoint));
      assert RedactAll(t, tenant, [endpoint]) == t;
    }
    if dryRun || matched.value == 0 {
      return Ok(ErasureResult(dryRun, [endpoint], matched.value, 0, 0, false));
    }
    var n := db.Update(FromEndpoint(tenant, endpoint), Redact);
    if n.Err? {
      return Err(Db(n.error));
    }
    r := Ok(ErasureResult(false, [endpoint], matched.value, n.value, 0, false));
  }
}
