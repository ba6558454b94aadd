/** Outbound messages: the replies of `internal/outboundapi`, and the background replies of
    ingest. Both send first and record afterwards. */
module OutboundApi {
  import opened Wrappers
  import opened Policy
  import opened Messages
  import opened Store

  const EMAIL_SES := "email-ses"

  datatype OutError = BadRequest | NotFound | Failed

  /** Who to send to, from which account, and what the message answers. */
  datatype Destination = Destination(
    tenant: Uuid, account: Uuid, endpoint: string, contact: Option<Uuid>, inReplyTo: Option<Uuid>)

  /** What the calls of one request give: the account; whether it has credentials and they
      decrypt; the platform's id for the message, if it was sent; fresh ids; the clock. */
  datatype Env = Env(
    account: Result<Account, DbError>, hasCredentials: bool, decrypts: bool, sentAs: Option<string>,
    freshPlatformId: string, newId: Uuid, now: int)

  datatype Dispatched = Dispatched(account: Uuid, to: string, text: string)

  /** The id recorded for a message: the platform's, or a fresh one if it gave none. */
  function PlatformIdOf(env: Env): string {
    if env.sentAs.Some? && env.sentAs.value != "" then env.sentAs.value else env.freshPlatformId
  }

  function OutboundRow(t: Destination, text: string, action: Action, env: Env): Row {
    Row(env.newId, t.tenant, Some(t.account), None, Outbound, None, t.contact, None, text, None, None, None,
        action, false, t.inReplyTo, PlatformIdOf(env), Verbatim("{}"), env.now, Some(env.now))
  }

  /** Nothing was sent or recorded; or the message was sent, and recorded or not: when no
      database call failed, exactly when the constraints admit its row. */
  ghost predicate SentThenRecorded(t: Destination, text: string, action: Action, env: Env, recorded: bool,
                                   faulty: bool, table: Table, table': Table, sent: seq<Dispatched>,
                                   sent': seq<Dispatched>)
  {
    var row := OutboundRow(t, text, action, env);
    if sent' == sent then table' == table && !recorded
    else
      && env.sentAs.Some? && sent' == sent + [Dispatched(t.account, t.endpoint, text)]
      && (table' == table || (row.id !in table && OutboundAllowed(table, row) && table' == table[row.id := row]))
      && (recorded ==> row.id !in table && table' == table[row.id := row])
      && (faulty || ((recorded <==> row.id !in table && OutboundAllowed(table, row))
                     && (!recorded ==> table' == table)))
  }

  /** A reply that takes the tenant of the row it answers keeps every link inside its tenant. */
  lemma RecordingKeepsLinks(t: Destination, text: string, action: Action, env: Env, recorded: bool, faulty: bool,
                            table: Table, table': Table, sent: seq<Dispatched>, sent': seq<Dispatched>)
    requires SentThenRecorded(t, text, action, env, recorded, faulty, table, table', sent, sent') && LinksSound(table)
    requires t.inReplyTo.Some? && t.inReplyTo.value in table ==> table[t.inReplyTo.value].tenant == t.tenant
    ensures LinksSound(table')
  {
    var row := OutboundRow(t, text, action, env);
    if table' != table {
      assert row.id !in table && table' == table[row.id := row];
    }
  }

  /** Whether a message is handed to the platform: the account is there, its token, if it
      needs one, decrypts, and the platform takes the message. */
  predicate Sends(env: Env) {
    && env.account.Ok? && env.sentAs.Some?
    && (env.account.value.type_ == EMAIL_SES || (env.hasCredentials && env.decrypts))
  }

  class Service {
    const db: Database
    /** Everything handed to a platform, in order. */
    var sent: seq<Dispatched>

    constructor (db: Database)
      ensures this.db == db && sent == []
    {
      this.db, this.sent := db, [];
    }

    /** Load the account, decrypt its token unless it needs none, dispatch, and record. */
    method Send(t: Destination, text: string, env: Env) returns (r: Result<(Uuid, string), OutError>)
      modifies this`sent, db`messages, db`faults
      ensures db.faults >= old(db.faults)
      ensures SentThenRecorded(t, text, Action.Sent, env, r.Ok?, db.faults != old(db.faults),
                               old(db.messages), db.messages, old(sent), sent)
      ensures r == Err(NotFound) <==> env.account == Err(NoRows)
      ensures r.Ok? ==> r.value == (env.newId, t.endpoint)
      ensures r != Err(BadRequest)
      ensures sent != old(sent) <==> Sends(env)
    {
      if env.account.Err? {
        return Err(if env.account.error == NoRows then NotFound else Failed);
      }
      if env.account.value.type_ != EMAIL_SES && (!env.hasCredentials || !env.decrypts) {
        return Err(Failed);
      }
      if env.sentAs.None? {
        return Err(Failed);
      }
      sent := sent + [Dispatched(t.account, t.endpoint, text)];
      assert |sent| != |old(sent)|;
      var id := db.CreateOutbound(OutboundRow(t, text, Action.Sent, env));
      if id.Err? {
        return Err(Failed);
      }
      r := Ok((id.value, t.endpoint));
    }

    /** Reply to the sender of a stored message, through the account it came in on. What is
        recorded is linked to that message and has its tenant. A message without an account or
        a sender cannot be answered. */
    method ReplyToMessage(inReplyTo: Uuid, text: string, env: Env) returns (r: Result<(Uuid, string), OutError>)
      modifies this`sent, db`messages, db`faults
      ensures db.faults >= old(db.faults)
      ensures r == Err(BadRequest) <==> text == ""
      ensures r.Err? && r.error in {BadRequest, NotFound} ==> db.messages == old(db.messages) && sent == old(sent)
      ensures r == Err(NotFound) ==> Unanswerable(old(db.messages), inReplyTo) || env.account == Err(NoRows)
      ensures db.faults == old(db.faults) && text != "" ==>
        && (r == Err(NotFound) <==> Unanswerable(old(db.messages), inReplyTo) || env.account == Err(NoRows))
        && (sent != old(sent) <==> r != Err(NotFound) && Sends(env))
      ensures r.Ok? || db.messages != old(db.messages) || sent != old(sent) ==>
        && inReplyTo in old(db.messages) && CanBeAnswered(old(db.messages)[inReplyTo])
        && SentThenRecorded(Answering(old(db.messages)[inReplyTo], inReplyTo), text, Action.Sent, env, r.Ok?,
                            db.faults != old(db.faults), old(db.messages), db.messages, old(sent), sent)
        && SentToItsSender(old(db.messages)[inReplyTo], text, env, old(sent), sent)
        && (db.messages == old(db.messages)
            || RecordedAsAnswer(old(db.messages)[inReplyTo], inReplyTo, text, env, old(db.messages), db.messages))
        && (r.Ok? ==> db.messages != old(db.messages)
                      && r.value == (env.newId, old(db.messages)[inReplyTo].senderEndpoint.value))
      ensures LinksSound(old(db.messages)) && KeyedById(old(db.messages)) ==> LinksSound(db.messages)
    {
      if text == "" {
        return Err(BadRequest);
      }
      var row := db.GetMessage(inReplyTo);
      if row.Err? {
        return Err(if row.error == NoRows then NotFound else Failed);
      }
      if !CanBeAnswered(row.value) {
        return Err(NotFound);
      }
      ghost var table, before := db.messages, sent;
      r := Send(Answering(row.value, inReplyTo), text, env);
      AnswerMeans(row.value, inReplyTo, text, env, r.Ok?, db.faults != old(db.faults),
                  table, db.messages, before, sent);
      if LinksSound(table) {
        RecordingKeepsLinks(Answering(row.value, inReplyTo), text, Action.Sent, env, r.Ok?, db.faults != old(db.faults),
                            table, db.messages, before, sent);
      }
    }

    /** `dispatchOutbound`: a background reply of ingest for `inReplyTo`, in the account's
        tenant; every failure is only logged. */
    method DispatchReply(acct: Account, account: Uuid, inReplyTo: Uuid, to: string, text: string, action: Action,
                         hasAdapter: bool, env: Env)
      returns (ghost recorded: bool)
      modifies this`sent, db`messages, db`faults
      ensures db.faults >= old(db.faults)
      ensures SentThenRecorded(Destination(acct.tenant, account, to, None, Some(inReplyTo)), text, action, env,
                               recorded, db.faults != old(db.faults), old(db.messages), db.messages, old(sent), sent)
      ensures sent != old(sent) <==> env.hasCredentials && env.decrypts && hasAdapter && env.sentAs.Some?
      ensures (&& LinksSound(old(db.messages))
               && (inReplyTo in old(db.messages) ==> old(db.messages)[inReplyTo].tenant == acct.tenant))
              ==> LinksSound(db.messages)
    {
      var t := Destination(acct.tenant, account, to, None, Some(inReplyTo));
      ghost var table, before := db.messages, sent;
      if !env.hasCredentials || !env.decrypts || !hasAdapter || env.sentAs.None? {
        return false;
      }
      sent := sent + [Dispatched(account, to, text)];
      assert |sent| != |before|;
      var id := db.CreateOutbound(OutboundRow(t, text, action, env));
      recorded := id.Ok?;
      if LinksSound(table) && (inReplyTo in table ==> table[inReplyTo].tenant == acct.tenant) {
        RecordingKeepsLinks(t, text, action, env, id.Ok?, db.faults != old(db.faults),
                            table, db.messages, before, sent);
      }
    }
  }

  predicate CanBeAnswered(row: Row) {
    row.account.Some? && row.senderEndpoint.Some? && row.senderEndpoint.value != ""
  }

  /** There is no such message, or it has no account, or no sender. */
  predicate Unanswerable(t: Table, id: Uuid) {
    id !in t || t[id].account.None? || t[id].senderEndpoint in {None, Some("")}
  }

  /** At most one message was handed over: the text, to the row's sender, from its account. */
  predicate SentToItsSender(row: Row, text: string, env: Env, sent: seq<Dispatched>, sent': seq<Dispatched>) {
    sent' == sent ||
    (&& row.account.Some? && row.senderEndpoint.Some? && row.senderEndpoint.value != ""
     && sent' == sent + [Dispatched(row.account.value, row.senderEndpoint.value, text)])
  }

  /** One row was added: the text, from the answered row's account and in its tenant, to its
      sender's contact, under the id the platform gave or else a fresh one. */
  predicate RecordedAsAnswer(row: Row, id: Uuid, text: string, env: Env, t: Table, t': Table) {
    && env.newId !in t && t'.Keys == t.Keys + {env.newId} && (forall k :: k in t ==> t'[k] == t[k])
    && var new_ := t'[env.newId];
       && new_.id == env.newId && new_.tenant == row.tenant && new_.account == row.account
       && new_.direction == Outbound && new_.inReplyTo == Some(id) && new_.recipientContact == row.senderContact
       && new_.bodyText == text && new_.action == Action.Sent && !new_.fired && new_.receivedAt == env.now
       && new_.platformId == (if env.sentAs in {None, Some("")} then env.freshPlatformId else env.sentAs.value)
       && new_.senderContact == None && new_.senderEndpoint == None
  }

  lemma AnswerMeans(row: Row, id: Uuid, text: string, env: Env, recorded: bool, faulty: bool, t: Table, t': Table,
                    sent: seq<Dispatched>, sent': seq<Dispatched>)
    requires CanBeAnswered(row)
    requires SentThenRecorded(Answering(row, id), text, Action.Sent, env, recorded, faulty, t, t', sent, sent')
    ensures SentToItsSender(row, text, env, sent, sent')
    ensures t' == t || RecordedAsAnswer(row, id, text, env, t, t')
    ensures recorded ==> t' != t
  {
    hide OutboundAllowed;
  }

  /** The target of a reply to a stored message. */
  function Answering(row: Row, id: Uuid): Destination
    requires CanBeAnswered(row)
  {
    Destination(row.tenant, row.account.value, row.senderEndpoint.value, row.senderContact, Some(id))
  }
}
