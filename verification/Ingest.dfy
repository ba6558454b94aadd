/** `internal/ingest`: storing an inbound message once, deciding on it, starting the
    background jobs it calls for, and recalling an echoed message. */
module Ingest {
  import opened Wrappers
  import opened Alphabet
  import opened Canonical
  import opened Parser
  import opened Resolver
  import opened Policy
  import opened Decision
  import opened Messages
  import opened Store
  import opened Forwarding

  datatype Mode = Structured | Passthrough

  datatype ChannelCtx = ChannelCtx(
    id: Option<Uuid>, parserCfg: Config, thresholds: Thresholds, recallSeconds: int, workflowUrl: string, mode: Mode)

  /** A channel row, its two JSON columns decoded; None for one that does not decode. */
  datatype ChannelRow = ChannelRow(
    id: Uuid, workflowUrl: Option<string>, parserConfig: Option<(seq<string>, Mode)>,
    thresholds: Option<(Option<real>, Option<real>)>, recallSeconds: int)

  const DEFAULT_RECALL_SECONDS := 120

  /** What the service is built with. */
  datatype Deps = Deps(u: Unicode, codec: Codec, parserCfg: Config, thresholds: Thresholds, hasForwarder: bool)

  /** What the calls and clock reads of one request give: the account, if found; the
      account's channel and its tenant's address book, if they can be read; the clock when
      the recall window is cut off, when the row is stored, and when the payload is built. */
  datatype AccountLookup = Found(account: Account) | Missing | LookupFailed

  datatype Reads = Reads(
    account: AccountLookup, channel: Option<ChannelRow>, addressBook: Option<seq<ContactRow>>,
    newId: Uuid, cutoffNow: int, storedNow: int, payloadNow: int)

  /** A background job: a delivery to the consumer, or a message back to the sender that
      is recorded as a reply. */
  datatype Job =
    | ForwardJob(messageId: Uuid, url: string, body: ForwardBody)
    | ReplyJob(account: Uuid, tenant: Uuid, inReplyTo: Uuid, to: string, text: string, kind: Action)

  datatype IngestError = InvalidAccount | AccountNotFound | AccountInactive | Failed

  datatype IngestResult = IngestResult(messageId: Uuid, isReplay: bool, action: Action)

  function ResolveChannel(d: Deps, row: Option<ChannelRow>): ChannelCtx {
    match row
    case None => ChannelCtx(None, d.parserCfg, d.thresholds, DEFAULT_RECALL_SECONDS, "", Structured)
    case Some(r) =>
      ChannelCtx(
        Some(r.id),
        if r.parserConfig.Some? && r.parserConfig.value.0 != [] then Config(r.parserConfig.value.0) else d.parserCfg,
        if r.thresholds.None? then d.thresholds
        else Thresholds(
          if r.thresholds.value.0.Some? then r.thresholds.value.0.value else d.thresholds.high,
          if r.thresholds.value.1.Some? then r.thresholds.value.1.value else d.thresholds.medium),
        if r.recallSeconds > 0 then r.recallSeconds else DEFAULT_RECALL_SECONDS,
        if r.workflowUrl.Some? then r.workflowUrl.value else "",
        if r.parserConfig.Some? then r.parserConfig.value.1 else Structured)
  }

  predicate IsRecallWord(u: Unicode, text: string) {
    EqualFold(u, Trim(u, text), "OOPS")
  }

  const RECALL_DOC := EMPTY_DOC.(recall := true)

  function PassthroughDoc(text: string): Doc {
    EMPTY_DOC.(ok := true, passthrough := true, payload := text)
  }

  /** The row an OOPS is kept as: no channel, attachments or location. */
  function RecallRow(d: Deps, account: Uuid, tenant: Uuid, m: Message, action: Action, id: Uuid, now: int): Row {
    InboundRow(d.codec, account, tenant, None, m, RECALL_DOC, action, id, now)
      .(attachments := None, location := None)
  }

  /** The forward a stored message starts, if its channel has a consumer. */
  function ForwardJobs(d: Deps, account: Uuid, acct: Account, ch: ChannelCtx, m: Message, doc: Doc, id: Uuid,
                       now: int): seq<Job>
  {
    if ch.workflowUrl != "" && d.hasForwarder then
      [ForwardJob(id, ch.workflowUrl, LivePayload(d.codec, account, acct, ch.id, m, doc, id, now))]
    else []
  }

  /** The jobs a newly stored structured message starts. */
  function StructuredJobs(d: Deps, account: Uuid, acct: Account, ch: ChannelCtx, m: Message, v: Verdict, id: Uuid,
                          now: int): seq<Job>
  {
    match v.action
    case EchoBack =>
      [ReplyJob(account, acct.tenant, id, m.endpoint,
                EchoText(d.codec.decimal, v.targetDesc, Text(m), ch.recallSeconds), EchoedBack)]
    case Execute => ForwardJobs(d, account, acct, ch, m, v.doc, id, now)
    case _ => []
  }

  /** The acknowledgement of a recall. */
  function RecallJob(d: Deps, account: Uuid, tenant: Uuid, to: string, recalled: Uuid, text: string): Job {
    ReplyJob(account, tenant, recalled, to, "RECALLED — " + d.codec.quote(text) + " was not forwarded.", Recalled)
  }

  /** Either nothing was stored, or this row was. */
  ghost predicate StoredAtMost(t: Table, t': Table, row: Row) {
    || t' == t
    || (row.id !in t && row.account.Some? && !KeyTaken(t, row.account.value, row.platformId) && t' == t[row.id := row])
  }

  /** A message decided to be stored as `row` and to start `started` did so, was a
      redelivery, or failed; it fails only by a failing call, or an id that is taken. */
  ghost predicate Ingested(c: Change, row: Row, started: seq<Job>)
    requires row.account.Some?
  {
    match c.r
    case Err(_) =>
      && c.jobs' == c.jobs && StoredAtMost(c.t, c.t', row)
      && (c.faulty || (row.id in c.t && !KeyTaken(c.t, row.account.value, row.platformId)))
    case Ok(res) =>
      if res.isReplay then
        && c.t' == c.t && c.jobs' == c.jobs && res.action == row.action
        && res.messageId in c.t && HasKey(c.t[res.messageId], row.account.value, row.platformId)
      else
        && row.id !in c.t && !KeyTaken(c.t, row.account.value, row.platformId)
        && c.t' == c.t[row.id := row] && c.jobs' == c.jobs + started
        && res.messageId == row.id && res.action == row.action
  }

  /** After the row of a new OOPS, the echo it found is marked and the recall confirmed; or
      the mark failed, and may have been made, and nothing is confirmed. */
  ghost predicate RecallMarked(t: Table, t': Table, jobs: seq<Job>, jobs': seq<Job>, row: Row, echo: Uuid, ack: Job,
                               faulty: bool)
  {
    || (t' == MarkRecalled(t[row.id := row], echo) && jobs' == jobs + [ack])
    || (faulty && t' in {t[row.id := row], MarkRecalled(t[row.id := row], echo)} && jobs' == jobs)
  }

  /** What handling a message may leave behind; `faulty` if some database call failed. */
  datatype Change = Change(
    t: Table, t': Table, jobs: seq<Job>, jobs': seq<Job>, r: Result<IngestResult, IngestError>, faulty: bool)

  ghost predicate RecallOutcome(d: Deps, account: Uuid, acct: Account, m: Message, recallSeconds: int, env: Reads,
                                c: Change)
  {
    var cutoff := env.cutoffNow - recallSeconds;
    || (exists echo ::
          && IsRecentEcho(c.t, account, TextOrNull(m.endpoint), cutoff, echo)
          && var row := RecallRow(d, account, acct.tenant, m, Recalled, env.newId, env.storedNow);
          if c.r.Ok? && !c.r.value.isReplay then
            && row.id !in c.t && !KeyTaken(c.t, account, m.platformId)
            && c.r == Ok(IngestResult(row.id, false, Recalled))
            && RecallMarked(c.t, c.t', c.jobs, c.jobs', row, echo,
                            RecallJob(d, account, acct.tenant, m.endpoint, echo, c.t[echo].bodyText), c.faulty)
          else Ingested(c, row, []))
    || ((c.r.Ok? || c.t' != c.t || !c.faulty ==> NoRecentEcho(c.t, account, TextOrNull(m.endpoint), cutoff))
        && Ingested(c, RecallRow(d, account, acct.tenant, m, Clarify, env.newId, env.storedNow), []))
  }

  ghost predicate PassthroughOutcome(d: Deps, account: Uuid, acct: Account, m: Message, ch: ChannelCtx, env: Reads,
                                     c: Change)
  {
    var doc := PassthroughDoc(Text(m));
    Ingested(c, InboundRow(d.codec, account, acct.tenant, ch.id, m, doc, Routed, env.newId, env.storedNow),
             ForwardJobs(d, account, acct, ch, m, doc, env.newId, env.payloadNow))
  }

  ghost predicate StructuredOutcome(d: Deps, account: Uuid, acct: Account, m: Message, ch: ChannelCtx, env: Reads,
                                    c: Change)
  {
    if env.addressBook.None? && Parsed(d.u, Text(m), ch.parserCfg).ok then
      c.r == Err(Failed) && c.t' == c.t && c.jobs' == c.jobs
    else
      var v := VerdictOf(d, m, ch, env);
      Ingested(c, InboundRow(d.codec, account, acct.tenant, ch.id, m, v.doc, v.action, env.newId, env.storedNow),
               StructuredJobs(d, account, acct, ch, m, v, env.newId, env.payloadNow))
  }

  /** The outcome of a message on an active account. */
  ghost predicate Handled(d: Deps, account: Uuid, acct: Account, m: Message, env: Reads, c: Change) {
    var ch := ResolveChannel(d, env.channel);
    if IsRecallWord(d.u, Text(m)) then RecallOutcome(d, account, acct, m, ch.recallSeconds, env, c)
    else if ch.mode == Passthrough then PassthroughOutcome(d, account, acct, m, ch, env, c)
    else StructuredOutcome(d, account, acct, m, ch, env, c)
  }

  class Service {
    const deps: Deps
    const db: Database
    /** The background jobs started so far, in order. */
    var jobs: seq<Job>

    constructor (deps: Deps, db: Database)
      ensures this.deps == deps && this.db == db && jobs == []
    {
      this.deps, this.db, this.jobs := deps, db, [];
    }

    /** Insert a row, or find the one that already holds its key. */
    method StoreOnce(row: Row) returns (r: Result<IngestResult, IngestError>)
      requires row.account.Some?
      modifies db`messages, db`faults
      ensures db.faults >= old(db.faults)
      ensures Ingested(Change(old(db.messages), db.messages, jobs, jobs, r, db.faults != old(db.faults)), row, [])
      ensures r.Err? ==> r.error == Failed
    {
      var id := db.CreateInbound(row);
      if id.Err? {
        if id.error == NoRows {
          var existing := db.GetMessageId(row.account.value, row.platformId);
          if existing.Err? {
            return Err(Failed);
          }
          return Ok(IngestResult(existing.value, true, row.action));
        }
        return Err(Failed);
      }
      r := Ok(IngestResult(id.value, false, row.action));
    }

    /** OOPS: a new one marks the newest echo of its sender and account still in the window,
        if there is one, and confirms it; a redelivered one marks nothing. */
    method HandleRecall(account: Uuid, acct: Account, m: Message, recallSeconds: int, env: Reads)
      returns (r: Result<IngestResult, IngestError>)
      modifies this`jobs, db`messages, db`faults
      ensures db.faults >= old(db.faults)
      ensures RecallOutcome(deps, account, acct, m, recallSeconds, env,
                            Change(old(db.messages), db.messages, old(jobs), jobs, r, db.faults != old(db.faults)))
      ensures r.Err? ==> r.error == Failed
    {
      ghost var t := db.messages;
      var cutoff := env.cutoffNow - recallSeconds;
      var rec := db.FindRecentEcho(account, TextOrNull(m.endpoint), cutoff);
      if rec.Err? && rec.error != NoRows {
        return Err(Failed);
      }
      var found := rec.Ok?;
      var action := if found then Recalled else Clarify;
      var row := RecallRow(deps, account, acct.tenant, m, action, env.newId, env.storedNow);
      r := StoreOnce(row);
      if r.Err? || r.value.isReplay {
        return;
      }
      if found {
        var marked := db.Update(WithId(rec.value.0), (r: Row) => r.(action := Recalled));
        if marked.Ok? {
          jobs := jobs + [RecallJob(deps, account, acct.tenant, m.endpoint, rec.value.0, rec.value.1)];
        }
        assert RecallMarked(t, db.messages, old(jobs), jobs, row, rec.value.0,
                            RecallJob(deps, account, acct.tenant, m.endpoint, rec.value.0, t[rec.value.0].bodyText),
                            db.faults != old(db.faults));
      }
    }

    /** A conversational channel: the text goes to the consumer as it is. */
    method HandlePassthrough(account: Uuid, acct: Account, m: Message, ch: ChannelCtx, env: Reads)
      returns (r: Result<IngestResult, IngestError>)
      modifies this`jobs, db`messages, db`faults
      ensures db.faults >= old(db.faults)
      ensures PassthroughOutcome(deps, account, acct, m, ch, env,
                                 Change(old(db.messages), db.messages, old(jobs), jobs, r, db.faults != old(db.faults)))
      ensures r.Err? ==> r.error == Failed
    {
      var doc := PassthroughDoc(Text(m));
      r := StoreOnce(InboundRow(deps.codec, account, acct.tenant, ch.id, m, doc, Routed, env.newId, env.storedNow));
      if r.Ok? && !r.value.isReplay {
        jobs := jobs + ForwardJobs(deps, account, acct, ch, m, doc, r.value.messageId, env.payloadNow);
      }
    }

    /** A structured channel: parse, resolve, score and gate, then store and act on it. */
    method HandleStructured(account: Uuid, acct: Account, m: Message, ch: ChannelCtx, env: Reads)
      returns (r: Result<IngestResult, IngestError>)
      modifies this`jobs, db`messages, db`faults
      ensures db.faults >= old(db.faults)
      ensures StructuredOutcome(deps, account, acct, m, ch, env,
                                Change(old(db.messages), db.messages, old(jobs), jobs, r, db.faults != old(db.faults)))
      ensures r.Err? ==> r.error == Failed
    {
      hide Parsed, VerdictOn, InboundRow, StructuredJobs;
      var verdict := DecideText(deps.u, Text(m), env.addressBook, ch.parserCfg, ch.thresholds);
      if verdict.Err? {
        return Err(Failed);
      }
      var v := verdict.value;
      assert v == VerdictOf(deps, m, ch, env);
      r := StoreOnce(InboundRow(deps.codec, account, acct.tenant, ch.id, m, v.doc, v.action, env.newId, env.storedNow));
      if r.Ok? && !r.value.isReplay {
        jobs := jobs + StructuredJobs(deps, account, acct, ch, m, v, r.value.messageId, env.payloadNow);
      }
    }

    method Ingest(m: Message, env: Reads) returns (r: Result<IngestResult, IngestError>)
      modifies this`jobs, db`messages, db`faults
      ensures db.faults >= old(db.faults)
      ensures r == Err(InvalidAccount) <==> deps.codec.parseId(m.accountId).None?
      ensures r == Err(AccountNotFound) <==> deps.codec.parseId(m.accountId).Some? && env.account.Missing?
      ensures r == Err(AccountInactive) <==>
        deps.codec.parseId(m.accountId).Some? && env.account.Found? && !env.account.account.active
      ensures deps.codec.parseId(m.accountId).Some? && env.account.LookupFailed? ==>
        r == Err(Failed) && db.messages == old(db.messages) && jobs == old(jobs)
      ensures r.Err? && r.error != Failed ==> db.messages == old(db.messages) && jobs == old(jobs)
      ensures deps.codec.parseId(m.accountId).Some? && env.account.Found? && env.account.account.active ==>
        Handled(deps, deps.codec.parseId(m.accountId).value, env.account.account, m, env,
                Change(old(db.messages), db.messages, old(jobs), jobs, r, db.faults != old(db.faults)))
    {
      var accId := deps.codec.parseId(m.accountId);
      if accId.None? {
        return Err(InvalidAccount);
      }
      if env.account.Missing? {
        return Err(AccountNotFound);
      }
      if env.account.LookupFailed? {
        return Err(Failed);
      }
      var acct := env.account.account;
      if !acct.active {
        return Err(AccountInactive);
      }
      hide RecallOutcome, PassthroughOutcome, StructuredOutcome, ResolveChannel, IsRecallWord;
      var ch := ResolveChannel(deps, env.channel);
      if IsRecallWord(deps.u, Text(m)) {
        r := HandleRecall(accId.value, acct, m, ch.recallSeconds, env);
      } else if ch.mode == Passthrough {
        r := HandlePassthrough(accId.value, acct, m, ch, env);
      } else {
        r := HandleStructured(accId.value, acct, m, ch, env);
      }
    }
  }

  function VerdictOf(d: Deps, m: Message, ch: ChannelCtx, env: Reads): Verdict {
    if env.addressBook.Some? then VerdictOn(d.u, Text(m), env.addressBook.value, ch.parserCfg, ch.thresholds)
    else Verdict(EMPTY_DOC, Clarify, "")
  }

  // ----- What every outcome keeps -----

  /** A message whose key is taken changes no row and starts no job, and if it is answered
      at all it is answered as a replay of the row that holds the key. */
  lemma RedeliveryChangesNothing(d: Deps, account: Uuid, acct: Account, m: Message, env: Reads, c: Change)
    requires Handled(d, account, acct, m, env, c) && KeyTaken(c.t, account, m.platformId)
    ensures c.t' == c.t && c.jobs' == c.jobs
    ensures c.r.Ok? ==> c.r.value.isReplay && c.r.value.messageId in c.t
                        && HasKey(c.t[c.r.value.messageId], account, m.platformId)
  {
    hide ResolveChannel, IsRecallWord, VerdictOf, StructuredJobs, ForwardJobs;
  }

  /** An answered message leaves a row with its key, and answering it again, whatever has
      been read in between, changes nothing more: in particular an OOPS delivered twice
      recalls nothing more than it did once. */
  lemma SecondDeliveryChangesNothing(d: Deps, account: Uuid, acct: Account, m: Message, env: Reads, env': Reads,
                                     c: Change, c': Change)
    requires Handled(d, account, acct, m, env, c) && c.r.Ok?
    requires Handled(d, account, acct, m, env', c') && c'.t == c.t' && c'.jobs == c.jobs'
    ensures KeyTaken(c.t', account, m.platformId)
    ensures c'.t' == c.t' && c'.jobs' == c.jobs'
  {
    AnsweredMeansStored(d, account, acct, m, env, c);
    RedeliveryChangesNothing(d, account, acct, m, env', c');
  }

  lemma AnsweredMeansStored(d: Deps, account: Uuid, acct: Account, m: Message, env: Reads, c: Change)
    requires Handled(d, account, acct, m, env, c) && c.r.Ok?
    ensures c.r.value.messageId in c.t' && HasKey(c.t'[c.r.value.messageId], account, m.platformId)
  {
    hide ResolveChannel, IsRecallWord, VerdictOf, StructuredJobs, ForwardJobs, RecallOutcome, KeyTaken;
    if IsRecallWord(d.u, Text(m)) {
      RecallAnsweredMeansStored(d, account, acct, m, ResolveChannel(d, env.channel).recallSeconds, env, c);
    }
  }

  lemma RecallAnsweredMeansStored(d: Deps, account: Uuid, acct: Account, m: Message, recallSeconds: int, env: Reads,
                                  c: Change)
    requires RecallOutcome(d, account, acct, m, recallSeconds, env, c) && c.r.Ok?
    ensures c.r.value.messageId in c.t' && HasKey(c.t'[c.r.value.messageId], account, m.platformId)
  {
    hide KeyTaken, NoRecentEcho, IsRecentEcho, RecallJob;
  }

  /** Whatever the message and however it ends, at most the row for it is added; any other
      row keeps everything but its action, which changes only from echoed to recalled. */
  lemma OthersChangeOnlyByRecall(d: Deps, account: Uuid, acct: Account, m: Message, env: Reads, c: Change)
    requires Handled(d, account, acct, m, env, c) && KeyedById(c.t)
    ensures c.t.Keys <= c.t'.Keys <= c.t.Keys + {env.newId} && KeyedById(c.t')
    ensures forall id :: id in c.t && c.t'[id] != c.t[id] ==>
              && IsRecallWord(d.u, Text(m)) && c.t[id].action == EchoBack && c.t'[id] == c.t[id].(action := Recalled)
              && c.t[id].account == Some(account) && c.t[id].senderEndpoint == TextOrNull(m.endpoint)
  {
    hide ResolveChannel, IsRecallWord, VerdictOf, StructuredJobs, ForwardJobs, InboundRow, RecallOutcome;
    if IsRecallWord(d.u, Text(m)) {
      RecallChangesOnlyEchoes(d, account, acct, m, ResolveChannel(d, env.channel).recallSeconds, env, c);
    }
  }

  lemma RecallChangesOnlyEchoes(d: Deps, account: Uuid, acct: Account, m: Message, recallSeconds: int, env: Reads,
                                c: Change)
    requires RecallOutcome(d, account, acct, m, recallSeconds, env, c) && KeyedById(c.t)
    ensures c.t.Keys <= c.t'.Keys <= c.t.Keys + {env.newId} && KeyedById(c.t')
    ensures forall id :: id in c.t && c.t'[id] != c.t[id] ==>
              && c.t[id].action == EchoBack && c.t'[id] == c.t[id].(action := Recalled)
              && c.t[id].account == Some(account) && c.t[id].senderEndpoint == TextOrNull(m.endpoint)
  {
    hide InboundRow, RecallJob, RecallRow, Ingested, RecallMarked, MarkRecalled, NoRecentEcho, KeyTaken;
    var row := RecallRow(d, account, acct.tenant, m, Recalled, env.newId, env.storedNow);
    var plain := RecallRow(d, account, acct.tenant, m, Clarify, env.newId, env.storedNow);
    assert row.id == env.newId && plain.id == env.newId && row.account.Some? && plain.account.Some? by {
      RecallRowIds(d, account, acct.tenant, m, env);
    }
    if Ingested(c, row, []) {
      IngestedAdds(c, row, []);
    } else if Ingested(c, plain, []) {
      IngestedAdds(c, plain, []);
    } else {
      var echo :|
        && IsRecentEcho(c.t, account, TextOrNull(m.endpoint), env.cutoffNow - recallSeconds, echo)
        && row.id !in c.t
        && RecallMarked(c.t, c.t', c.jobs, c.jobs', row, echo,
                        RecallJob(d, account, acct.tenant, m.endpoint, echo, c.t[echo].bodyText), c.faulty);
      EchoIsOfSender(c.t, account, TextOrNull(m.endpoint), env.cutoffNow - recallSeconds, echo);
      MarkChangesOne(c.t, c.t', c.jobs, c.jobs', row, echo,
                     RecallJob(d, account, acct.tenant, m.endpoint, echo, c.t[echo].bodyText), c.faulty);
    }
  }

  lemma RecallRowIds(d: Deps, account: Uuid, tenant: Uuid, m: Message, env: Reads)
    ensures forall action :: RecallRow(d, account, tenant, m, action, env.newId, env.storedNow).id == env.newId
    ensures forall action :: RecallRow(d, account, tenant, m, action, env.newId, env.storedNow).account == Some(account)
  {}

  /** Storing a row once adds at most it. */
  lemma IngestedAdds(c: Change, row: Row, started: seq<Job>)
    requires row.account.Some? && Ingested(c, row, started) && KeyedById(c.t)
    ensures c.t.Keys <= c.t'.Keys <= c.t.Keys + {row.id} && KeyedById(c.t')
    ensures forall id :: id in c.t ==> c.t'[id] == c.t[id]
  {
    hide KeyTaken;
  }

  lemma EchoIsOfSender(t: Table, account: Uuid, endpoint: Option<string>, cutoff: int, echo: Uuid)
    requires IsRecentEcho(t, account, endpoint, cutoff, echo)
    ensures echo in t && t[echo].action == EchoBack
    ensures t[echo].account == Some(account) && t[echo].senderEndpoint == endpoint
  {}

  lemma MarkChangesOne(t: Table, t': Table, jobs: seq<Job>, jobs': seq<Job>, row: Row, echo: Uuid, ack: Job,
                       faulty: bool)
    requires KeyedById(t) && row.id !in t && echo in t && RecallMarked(t, t', jobs, jobs', row, echo, ack, faulty)
    ensures t.Keys <= t'.Keys <= t.Keys + {row.id} && KeyedById(t')
    ensures forall id :: id in t && t'[id] != t[id] ==> id == echo && t'[id] == t[id].(action := Recalled)
  {}

  /** When no call fails, a new OOPS is stored; if there is an echo of its sender and account
      inside the window it recalls exactly one row, a newest such echo, and confirms it to
      the sender; if there is none it recalls nothing. */
  lemma RecallHitsTheNewestEcho(d: Deps, account: Uuid, acct: Account, m: Message, recallSeconds: int, env: Reads,
                                c: Change)
    requires RecallOutcome(d, account, acct, m, recallSeconds, env, c) && KeyedById(c.t)
    requires !c.faulty && env.newId !in c.t && !KeyTaken(c.t, account, m.platformId)
    ensures c.r.Ok? && !c.r.value.isReplay && c.r.value.messageId == env.newId
    ensures var cutoff := env.cutoffNow - recallSeconds;
            if NoRecentEcho(c.t, account, TextOrNull(m.endpoint), cutoff) then
              && c.t' == c.t[env.newId := RecallRow(d, account, acct.tenant, m, Clarify, env.newId, env.storedNow)]
              && c.jobs' == c.jobs
            else exists echo ::
              && IsRecentEcho(c.t, account, TextOrNull(m.endpoint), cutoff, echo)
              && c.t'.Keys == c.t.Keys + {env.newId}
              && c.t'[env.newId] == RecallRow(d, account, acct.tenant, m, Recalled, env.newId, env.storedNow)
              && c.t'[echo] == c.t[echo].(action := Recalled)
              && (forall id :: id in c.t && id != echo ==> c.t'[id] == c.t[id])
              && c.jobs' == c.jobs + [RecallJob(d, account, acct.tenant, m.endpoint, echo, c.t[echo].bodyText)]
  {
    hide KeyTaken, InboundRow, RecallMarked, RecallRow, RecallJob;
    RecallDoneUnlessFaulty(d, account, acct, m, recallSeconds, env, c);
    RecallRowIds(d, account, acct.tenant, m, env);
    var cutoff := env.cutoffNow - recallSeconds;
    if NoRecentEcho(c.t, account, TextOrNull(m.endpoint), cutoff) {
      NoneIsRecent(c.t, account, TextOrNull(m.endpoint), cutoff);
    } else {
      var row := RecallRow(d, account, acct.tenant, m, Recalled, env.newId, env.storedNow);
      var echo :| IsRecentEcho(c.t, account, TextOrNull(m.endpoint), cutoff, echo) && row.id !in c.t
        && RecallMarked(c.t, c.t', c.jobs, c.jobs', row, echo,
                        RecallJob(d, account, acct.tenant, m.endpoint, echo, c.t[echo].bodyText), false);
      hide RecallOutcome, NoRecentEcho;
      MarkConfirmed(c.t, c.t', c.jobs, c.jobs', row, echo,
                    RecallJob(d, account, acct.tenant, m.endpoint, echo, c.t[echo].bodyText));
    }
  }

  lemma NoneIsRecent(t: Table, account: Uuid, endpoint: Option<string>, cutoff: int)
    requires NoRecentEcho(t, account, endpoint, cutoff)
    ensures forall echo :: !IsRecentEcho(t, account, endpoint, cutoff, echo)
  {}

  /** A recall in which no call failed has marked its echo, and only it. */
  lemma MarkConfirmed(t: Table, t': Table, jobs: seq<Job>, jobs': seq<Job>, row: Row, echo: Uuid, ack: Job)
    requires KeyedById(t) && row.id !in t && echo in t
    requires RecallMarked(t, t', jobs, jobs', row, echo, ack, false)
    ensures t'.Keys == t.Keys + {row.id} && jobs' == jobs + [ack]
    ensures t'[row.id] == row && t'[echo] == t[echo].(action := Recalled)
    ensures forall id :: id in t && id != echo ==> t'[id] == t[id]
  {}

  /** A structured text needs the address book. */
  predicate NeedsAddressBook(d: Deps, m: Message, env: Reads) {
    var ch := ResolveChannel(d, env.channel);
    !IsRecallWord(d.u, Text(m)) && ch.mode == Structured && Parsed(d.u, Text(m), ch.parserCfg).ok
  }

  lemma KeyTakenMeans(t: Table, account: Uuid, platformId: string)
    ensures KeyTaken(t, account, platformId) <==>
            exists id :: id in t && t[id].account == Some(account) && t[id].platformId == platformId
  {
    assert forall id :: id in t ==> (HasKey(t[id], account, platformId) <==>
                                     t[id].account == Some(account) && t[id].platformId == platformId);
  }

  /** When no call fails, every message on an active account is answered: as a replay exactly
      when its key is taken, and otherwise stored under its fresh id. */
  lemma DoneUnlessFaulty(d: Deps, account: Uuid, acct: Account, m: Message, env: Reads, c: Change)
    requires Handled(d, account, acct, m, env, c) && !c.faulty && env.newId !in c.t
    requires NeedsAddressBook(d, m, env) ==> env.addressBook.Some?
    ensures c.r.Ok? && (c.r.value.isReplay <==>
                          exists id :: id in c.t && c.t[id].account == Some(account)
                                       && c.t[id].platformId == m.platformId)
    ensures !c.r.value.isReplay ==>
              c.r.value.messageId == env.newId && env.newId in c.t' && HasKey(c.t'[env.newId], account, m.platformId)
  {
    KeyTakenMeans(c.t, account, m.platformId);
    hide VerdictOf, StructuredJobs, ForwardJobs, ResolveChannel, IsRecallWord, RecallOutcome, StructuredOutcome;
    var ch := ResolveChannel(d, env.channel);
    if IsRecallWord(d.u, Text(m)) {
      RecallDoneUnlessFaulty(d, account, acct, m, ch.recallSeconds, env, c);
    } else if ch.mode == Structured {
      StructuredDoneUnlessFaulty(d, account, acct, m, ch, env, c);
    } else {
      hide InboundRow, KeyTaken;
    }
  }

  lemma RecallDoneUnlessFaulty(d: Deps, account: Uuid, acct: Account, m: Message, recallSeconds: int, env: Reads,
                               c: Change)
    requires RecallOutcome(d, account, acct, m, recallSeconds, env, c) && !c.faulty && env.newId !in c.t
    ensures c.r.Ok? && (c.r.value.isReplay <==> KeyTaken(c.t, account, m.platformId))
    ensures !c.r.value.isReplay ==>
              c.r.value.messageId == env.newId && env.newId in c.t' && HasKey(c.t'[env.newId], account, m.platformId)
  {
    hide NoRecentEcho, IsRecentEcho, RecallJob;
    assert forall t, account, platformId :: KeyTaken(t, account, platformId) <==>
                                            exists id :: id in t && HasKey(t[id], account, platformId);
    hide KeyTaken;
  }

  lemma StructuredDoneUnlessFaulty(d: Deps, account: Uuid, acct: Account, m: Message, ch: ChannelCtx, env: Reads,
                                   c: Change)
    requires StructuredOutcome(d, account, acct, m, ch, env, c) && !c.faulty && env.newId !in c.t
    requires Parsed(d.u, Text(m), ch.parserCfg).ok ==> env.addressBook.Some?
    ensures c.r.Ok? && (c.r.value.isReplay <==> KeyTaken(c.t, account, m.platformId))
    ensures !c.r.value.isReplay ==>
              c.r.value.messageId == env.newId && env.newId in c.t' && HasKey(c.t'[env.newId], account, m.platformId)
  {
    hide VerdictOf, StructuredJobs, Parsed;
    assert forall t, account, platformId :: KeyTaken(t, account, platformId) <==>
                                            exists id :: id in t && HasKey(t[id], account, platformId);
    hide KeyTaken;
  }

  /** What a job that was started is for: a forward for a newly added message that was
      executed or routed, an echo for one that was echoed, a confirmation for one recalled. */
  ghost predicate JobIsCalledFor(account: Uuid, acct: Account, env: Reads, c: Change, job: Job) {
    && env.newId in c.t' && env.newId !in c.t
    && match job
       case ForwardJob(id, url, body) => id == env.newId && c.t'[id].action in {Execute, Routed} && url != ""
       case ReplyJob(a, tenant, to, _, _, kind) =>
         && a == account && tenant == acct.tenant && to in c.t'
         && (kind == EchoedBack ==> to == env.newId && c.t'[to].action == EchoBack)
         && (kind == Recalled ==> to in c.t && c.t'[to].action == Recalled)
  }

  /** Jobs start only for a row that has just been added. */
  lemma JobsOnlyForNewRows(d: Deps, account: Uuid, acct: Account, m: Message, env: Reads, c: Change, k: nat)
    requires Handled(d, account, acct, m, env, c) && KeyedById(c.t)
    requires |c.jobs| <= k < |c.jobs'|
    ensures JobIsCalledFor(account, acct, env, c, c.jobs'[k])
  {
    hide ResolveChannel, IsRecallWord, RecallOutcome, PassthroughOutcome, StructuredOutcome, JobIsCalledFor;
    var ch := ResolveChannel(d, env.channel);
    if IsRecallWord(d.u, Text(m)) {
      RecallStartsItsJob(d, account, acct, m, ch.recallSeconds, env, c, k);
    } else if ch.mode == Passthrough {
      PassthroughStartsItsJob(d, account, acct, m, ch, env, c, k);
    } else {
      StructuredStartsItsJob(d, account, acct, m, ch, env, c, k);
    }
  }

  lemma RecallStartsItsJob(d: Deps, account: Uuid, acct: Account, m: Message, recallSeconds: int, env: Reads,
                           c: Change, k: nat)
    requires RecallOutcome(d, account, acct, m, recallSeconds, env, c) && KeyedById(c.t)
    requires |c.jobs| <= k < |c.jobs'|
    ensures JobIsCalledFor(account, acct, env, c, c.jobs'[k])
  {
    hide KeyTaken, NoRecentEcho, InboundRow;
  }

  lemma PassthroughStartsItsJob(d: Deps, account: Uuid, acct: Account, m: Message, ch: ChannelCtx, env: Reads,
                                c: Change, k: nat)
    requires PassthroughOutcome(d, account, acct, m, ch, env, c)
    requires |c.jobs| <= k < |c.jobs'|
    ensures JobIsCalledFor(account, acct, env, c, c.jobs'[k])
  {
    hide KeyTaken, InboundRow, LivePayload;
  }

  lemma StructuredStartsItsJob(d: Deps, account: Uuid, acct: Account, m: Message, ch: ChannelCtx, env: Reads,
                               c: Change, k: nat)
    requires StructuredOutcome(d, account, acct, m, ch, env, c)
    requires |c.jobs| <= k < |c.jobs'|
    ensures JobIsCalledFor(account, acct, env, c, c.jobs'[k])
  {
    hide KeyTaken, InboundRow, LivePayload, VerdictOf, EchoText;
  }
}
