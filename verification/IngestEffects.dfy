/** What one inbound message does, told by the message, its account and its channel's row. */
module IngestEffects {
  import opened Wrappers
  import opened Alphabet
  import opened Canonical
  import opened Parser
  import opened Resolver
  import opened Policy
  import opened Decision
  import opened Messages
  import opened Forwarding
  import opened Ingest
  import Grammar

  // ----- What the channel's row says, and what holds without it -----

  function UrlOf(env: Reads): string {
    if env.channel.Some? && env.channel.value.workflowUrl.Some? then env.channel.value.workflowUrl.value else ""
  }

  /** Somebody is there to forward to. */
  predicate HasConsumer(d: Deps, env: Reads) {
    d.hasForwarder && UrlOf(env) != ""
  }

  /** The recall window in seconds: the channel's if it is positive, or two minutes. */
  function WindowOf(env: Reads): int {
    if env.channel.Some? && env.channel.value.recallSeconds > 0 then env.channel.value.recallSeconds else 120
  }

  function ThresholdsOf(d: Deps, env: Reads): Thresholds {
    if env.channel.None? || env.channel.value.thresholds.None? then d.thresholds
    else
      var (high, medium) := env.channel.value.thresholds.value;
      Thresholds(if high.Some? then high.value else d.thresholds.high,
                 if medium.Some? then medium.value else d.thresholds.medium)
  }

  function CommandsOf(d: Deps, env: Reads): Config {
    if env.channel.Some? && env.channel.value.parserConfig.Some? && env.channel.value.parserConfig.value.0 != [] then
      Config(env.channel.value.parserConfig.value.0)
    else d.parserCfg
  }

  predicate IsConversational(env: Reads) {
    env.channel.Some? && env.channel.value.parserConfig.Some? && env.channel.value.parserConfig.value.1 == Passthrough
  }

  lemma ChannelAsRead(d: Deps, env: Reads)
    ensures var ch := ResolveChannel(d, env.channel);
            && ch.id == (if env.channel.Some? then Some(env.channel.value.id) else None)
            && ch.workflowUrl == UrlOf(env) && ch.recallSeconds == WindowOf(env) > 0
            && ch.thresholds == ThresholdsOf(d, env) && ch.parserCfg == CommandsOf(d, env)
            && (ch.mode == Passthrough <==> IsConversational(env))
  {}

  // ----- The word OOPS -----

  /** The text is the word OOPS in any letter case, with white space around it. */
  ghost predicate IsOops(u: Unicode, text: string) {
    exists lead, word, trail ::
      && text == lead + word + trail && AllSpace(u, lead) && AllSpace(u, trail) && Trimmed(u, word)
      && |word| == 4 && u.fold(word[0]) == u.fold('O') && u.fold(word[1]) == u.fold('O')
      && u.fold(word[2]) == u.fold('P') && u.fold(word[3]) == u.fold('S')
  }

  lemma FoldsToOops(u: Unicode, word: string)
    ensures EqualFold(u, word, "OOPS") <==>
            && |word| == 4 && u.fold(word[0]) == u.fold('O') && u.fold(word[1]) == u.fold('O')
            && u.fold(word[2]) == u.fold('P') && u.fold(word[3]) == u.fold('S')
  {
    var folded := Map(u.fold, "OOPS");
    assert folded == [u.fold('O'), u.fold('O'), u.fold('P'), u.fold('S')];
    if |word| == 4 {
      assert Map(u.fold, word) == [u.fold(word[0]), u.fold(word[1]), u.fold(word[2]), u.fold(word[3])];
    }
  }

  lemma RecallWordIsOops(u: Unicode, text: string)
    ensures IsRecallWord(u, text) <==> IsOops(u, text)
  {
    hide Trim, EqualFold;
    if IsRecallWord(u, text) {
      var lead, trail := Grammar.TrimCuts(u, text);
      FoldsToOops(u, Trim(u, text));
    }
    if IsOops(u, text) {
      var lead, word, trail :|
        && text == lead + word + trail && AllSpace(u, lead) && AllSpace(u, trail) && Trimmed(u, word)
        && |word| == 4 && u.fold(word[0]) == u.fold('O') && u.fold(word[1]) == u.fold('O')
        && u.fold(word[2]) == u.fold('P') && u.fold(word[3]) == u.fold('S');
      TrimOf(u, lead, word, trail);
      FoldsToOops(u, word);
    }
  }

  // ----- The row -----

  /** The text as the row keeps it. */
  function BodyOf(m: Message): string {
    if m.text.Some? then m.text.value else ""
  }

  /** A message was answered as new. */
  ghost predicate IsNew(c: Change, env: Reads) {
    c.r.Ok? && !c.r.value.isReplay && env.newId in c.t' && env.newId !in c.t
  }

  /** What every inbound row keeps of its message. */
  ghost predicate KeepsMessage(d: Deps, account: Uuid, acct: Account, m: Message, env: Reads, row: Row) {
    && row.id == env.newId && row.tenant == acct.tenant && row.account == Some(account) && row.direction == Inbound
    && row.senderEndpoint == (if m.endpoint == "" then None else Some(m.endpoint)) && row.bodyText == BodyOf(m)
    && row.platformId == m.platformId && row.raw == Verbatim(m.rawPayload)
    && row.receivedAt == (var t := d.codec.parseTime(m.receivedAt); if t.Some? then t.value else env.storedNow)
    && row.processedAt == Some(env.storedNow) && !row.fired && row.inReplyTo == None
    && row.senderContact == None && row.recipientContact == None && row.parsed.Some?
  }

  /** What the rows of all messages but an OOPS keep besides: channel, attachments and place. */
  ghost predicate KeepsExtras(d: Deps, m: Message, env: Reads, row: Row) {
    && row.channel == (if env.channel.Some? then Some(env.channel.value.id) else None)
    && row.attachments == (if m.attachments == [] then None else d.codec.attachmentsJson(m.attachments))
    && (if m.location.None? then row.location == None
        else row.location == Some(Point(m.location.value.lng, m.location.value.lat)))
  }

  /** What is decided and kept, by the kind of message. */
  ghost predicate KeepsDecision(d: Deps, m: Message, env: Reads, row: Row)
    requires row.parsed.Some?
  {
    var doc := row.parsed.value;
    if IsOops(d.u, BodyOf(m)) then
      && row.action in {Clarify, Recalled} && doc == EMPTY_DOC.(recall := true)
      && row.channel == None && row.attachments == None && row.location == None
    else if IsConversational(env) then
      row.action == Routed && doc == EMPTY_DOC.(ok := true, passthrough := true, payload := BodyOf(m))
    else
      var rows := if env.addressBook.Some? then env.addressBook.value else [];
      var verdict := VerdictOn(d.u, BodyOf(m), rows, CommandsOf(d, env), ThresholdsOf(d, env));
      row.action == verdict.action && doc == verdict.doc
  }

  lemma InboundRowKeeps(d: Deps, account: Uuid, acct: Account, m: Message, env: Reads, doc: Doc, action: Action)
    ensures var ch := ResolveChannel(d, env.channel);
            var row := InboundRow(d.codec, account, acct.tenant, ch.id, m, doc, action, env.newId, env.storedNow);
            && KeepsMessage(d, account, acct, m, env, row) && KeepsExtras(d, m, env, row)
            && row.action == action && row.parsed == Some(doc)
  {
    ChannelAsRead(d, env);
    hide ResolveChannel;
  }

  lemma RecallRowKeeps(d: Deps, account: Uuid, acct: Account, m: Message, env: Reads, action: Action)
    ensures var row := RecallRow(d, account, acct.tenant, m, action, env.newId, env.storedNow);
            && KeepsMessage(d, account, acct, m, env, row)
            && row.channel == None && row.attachments == None && row.location == None
            && row.action == action && row.parsed == Some(EMPTY_DOC.(recall := true))
  {}

  lemma UnparsedVerdict(d: Deps, m: Message, ch: ChannelCtx, env: Reads)
    requires env.addressBook.None? ==> !Parsed(d.u, Text(m), ch.parserCfg).ok
    ensures var rows := if env.addressBook.Some? then env.addressBook.value else [];
            VerdictOf(d, m, ch, env) == VerdictOn(d.u, Text(m), rows, ch.parserCfg, ch.thresholds)
  {
    hide Parsed, Resolution;
  }

  lemma NewRecallKept(d: Deps, account: Uuid, acct: Account, m: Message, recallSeconds: int, env: Reads, c: Change)
    requires RecallOutcome(d, account, acct, m, recallSeconds, env, c) && KeyedById(c.t)
    requires c.r.Ok? && !c.r.value.isReplay
    ensures IsNew(c, env) && c.r.value.messageId == env.newId && c.r.value.action in {Clarify, Recalled}
    ensures c.t'[env.newId] == RecallRow(d, account, acct.tenant, m, c.r.value.action, env.newId, env.storedNow)
  {
    hide InboundRow, KeyTaken, NoRecentEcho, RecallJob;
    RecallRowKeeps(d, account, acct, m, env, Clarify);
    RecallRowKeeps(d, account, acct, m, env, Recalled);
    hide RecallRow, KeepsMessage;
  }

  /** A message that is answered as new is kept whole, with what was decided on it. */
  lemma NewMessageIsKept(d: Deps, account: Uuid, acct: Account, m: Message, env: Reads, c: Change)
    requires Handled(d, account, acct, m, env, c) && KeyedById(c.t) && c.r.Ok? && !c.r.value.isReplay
    ensures IsNew(c, env) && c.r.value.messageId == env.newId && c.r.value.action == c.t'[env.newId].action
    ensures var row := c.t'[env.newId];
            && KeepsMessage(d, account, acct, m, env, row) && KeepsDecision(d, m, env, row)
            && (!IsOops(d.u, BodyOf(m)) ==> KeepsExtras(d, m, env, row))
  {
    ChannelAsRead(d, env);
    RecallWordIsOops(d.u, BodyOf(m));
    hide ResolveChannel, IsRecallWord, IsOops, RecallOutcome, StructuredJobs, ForwardJobs, KeyTaken, InboundRow;
    hide VerdictOn;
    var ch := ResolveChannel(d, env.channel);
    if IsRecallWord(d.u, Text(m)) {
      NewRecallKept(d, account, acct, m, ch.recallSeconds, env, c);
      RecallRowKeeps(d, account, acct, m, env, c.r.value.action);
    } else if ch.mode == Passthrough {
      InboundRowKeeps(d, account, acct, m, env, PassthroughDoc(Text(m)), Routed);
    } else {
      UnparsedVerdict(d, m, ch, env);
      var v := VerdictOf(d, m, ch, env);
      InboundRowKeeps(d, account, acct, m, env, v.doc, v.action);
    }
  }

  // ----- The jobs -----

  /** The transport of an account type. */
  predicate IsTransport(accountType: string, platform: string) {
    match accountType
    case "whatsapp" | "whatsapp-twilio" => platform == "whatsapp"
    case "sms-twilio" => platform == "sms"
    case "email-ses" => platform == "email"
    case _ => platform == accountType
  }

  /** What the consumer is sent for a row: who, through what, the command and payload that were
      parsed, and the message as it came. */
  ghost predicate TellsOf(d: Deps, acct: Account, m: Message, env: Reads, row: Row, b: ForwardBody)
    requires row.parsed.Some? && row.account.Some?
  {
    var doc := row.parsed.value;
    && b.messageId == d.codec.showId(row.id) && b.tenantId == d.codec.showId(row.tenant)
    && b.channelId == (if row.channel.Some? then d.codec.showId(row.channel.value) else "")
    && b.accountId == d.codec.showId(row.account.value) && b.accountType == acct.type_
    && IsTransport(acct.type_, b.platform)
    && b.contactId == (if doc.contactId.Some? then d.codec.showId(doc.contactId.value) else "")
    && b.senderEndpoint == m.endpoint && b.command == doc.command && b.payload == doc.payload
    && b.text == BodyOf(m) && b.attachments == row.attachments && b.location == m.location
    && b.receivedAt == (var t := d.codec.parseTime(m.receivedAt);
                        d.codec.formatTime(if t.Some? then t.value else env.payloadNow))
  }

  /** The confirmation an echoed sender reads, with the whole minutes left to recall. */
  ghost predicate IsEchoText(d: Deps, env: Reads, whom: string, original: string, text: string) {
    exists minutes: int ::
      && minutes >= 1 && (minutes == 1 || minutes * 60 <= WindowOf(env)) && WindowOf(env) < (minutes + 1) * 60
      && text == "[Forwarded to " + whom + ": " + original + ". Reply 'OOPS' within " + d.codec.decimal(minutes)
                 + (if minutes == 1 then " minute" else " minutes") + " to recall.]"
  }

  /** Exactly what a new row's action calls for is started. */
  ghost predicate StartsWhatItCallsFor(d: Deps, account: Uuid, acct: Account, m: Message, env: Reads, c: Change)
    requires IsNew(c, env) && c.t'[env.newId].parsed.Some? && c.t'[env.newId].account.Some?
  {
    var row := c.t'[env.newId];
    match row.action
    case Execute | Routed =>
      if HasConsumer(d, env) then
        exists body :: c.jobs' == c.jobs + [ForwardJob(env.newId, UrlOf(env), body)]
                       && TellsOf(d, acct, m, env, row, body)
      else c.jobs' == c.jobs
    case EchoBack =>
      exists text ::
        && c.jobs' == c.jobs + [ReplyJob(account, acct.tenant, env.newId, m.endpoint, text, EchoedBack)]
        && var doc := row.parsed.value;
           IsEchoText(d, env, if doc.targetKind == Target then "@" + doc.target else doc.shortId, BodyOf(m), text)
    case Recalled =>
      || (c.faulty && c.jobs' == c.jobs)
      || exists echo ::
           && IsRecentEcho(c.t, account, if m.endpoint == "" then None else Some(m.endpoint),
                           env.cutoffNow - WindowOf(env), echo)
           && c.jobs' == c.jobs + [ReplyJob(account, acct.tenant, echo, m.endpoint,
                "RECALLED — " + d.codec.quote(c.t[echo].bodyText) + " was not forwarded.", Recalled)]
    case _ => c.jobs' == c.jobs
  }

  lemma PayloadTells(d: Deps, account: Uuid, acct: Account, m: Message, env: Reads, doc: Doc, row: Row)
    requires KeepsMessage(d, account, acct, m, env, row) && KeepsExtras(d, m, env, row) && row.parsed == Some(doc)
    ensures var ch := ResolveChannel(d, env.channel);
            TellsOf(d, acct, m, env, row,
                    LivePayload(d.codec, account, acct, ch.id, m, doc, env.newId, env.payloadNow))
  {
    ChannelAsRead(d, env);
    hide ResolveChannel;
  }

  lemma EchoTextTells(d: Deps, env: Reads, whom: string, original: string)
    ensures IsEchoText(d, env, whom, original, EchoText(d.codec.decimal, whom, original, WindowOf(env)))
  {
    var window := WindowOf(env);
    var minutes := if window < 120 then 1 else window / 60;
    assert minutes >= 1 && (minutes == 1 || minutes * 60 <= window) && window < (minutes + 1) * 60;
  }

  lemma DescribesTarget(d: Deps, m: Message, env: Reads)
    ensures var rows := if env.addressBook.Some? then env.addressBook.value else [];
            var v := VerdictOn(d.u, BodyOf(m), rows, CommandsOf(d, env), ThresholdsOf(d, env));
            && v.action in {Clarify, EchoBack, Execute}
            && (v.action == EchoBack ==>
                  v.targetDesc == if v.doc.targetKind == Target then "@" + v.doc.target else v.doc.shortId)
  {
    hide Parsed, Resolution, Confidence, CommandsOf, ThresholdsOf;
  }

  lemma StructuredStarts(d: Deps, account: Uuid, acct: Account, m: Message, env: Reads, c: Change)
    requires StructuredOutcome(d, account, acct, m, ResolveChannel(d, env.channel), env, c)
    requires c.r.Ok? && !c.r.value.isReplay && !IsOops(d.u, BodyOf(m)) && !IsConversational(env)
    requires IsNew(c, env)
    requires var row := c.t'[env.newId];
             KeepsMessage(d, account, acct, m, env, row) && KeepsExtras(d, m, env, row)
             && KeepsDecision(d, m, env, row)
    ensures StartsWhatItCallsFor(d, account, acct, m, env, c)
  {
    hide IsOops, KeyTaken, InboundRow, VerdictOn, LivePayload, EchoText, IsEchoText, TellsOf, IsConversational;
    var ch := ResolveChannel(d, env.channel);
    UnparsedVerdict(d, m, ch, env);
    ChannelAsRead(d, env);
    hide ResolveChannel, CommandsOf, ThresholdsOf, VerdictOf, Parsed, UrlOf, WindowOf;
    var row := c.t'[env.newId];
    var v := VerdictOf(d, m, ch, env);
    PayloadTells(d, account, acct, m, env, v.doc, row);
    EchoTextTells(d, env, v.targetDesc, BodyOf(m));
    DescribesTarget(d, m, env);
    hide KeepsMessage, KeepsExtras;
  }

  lemma PassthroughStarts(d: Deps, account: Uuid, acct: Account, m: Message, env: Reads, c: Change)
    requires PassthroughOutcome(d, account, acct, m, ResolveChannel(d, env.channel), env, c)
    requires c.r.Ok? && !c.r.value.isReplay && !IsOops(d.u, BodyOf(m)) && IsConversational(env)
    requires IsNew(c, env)
    requires var row := c.t'[env.newId];
             KeepsMessage(d, account, acct, m, env, row) && KeepsExtras(d, m, env, row)
             && KeepsDecision(d, m, env, row)
    ensures StartsWhatItCallsFor(d, account, acct, m, env, c)
  {
    hide IsOops, KeyTaken, InboundRow, VerdictOn, LivePayload, EchoText, IsEchoText, TellsOf, IsConversational;
    ChannelAsRead(d, env);
    hide ResolveChannel, UrlOf, WindowOf;
    PayloadTells(d, account, acct, m, env, PassthroughDoc(Text(m)), c.t'[env.newId]);
    hide KeepsMessage, KeepsExtras;
  }

  lemma RecallStarts(d: Deps, account: Uuid, acct: Account, m: Message, env: Reads, c: Change)
    requires RecallOutcome(d, account, acct, m, WindowOf(env), env, c) && KeyedById(c.t)
    requires c.r.Ok? && !c.r.value.isReplay
    requires IsNew(c, env) && c.t'[env.newId].parsed.Some? && c.t'[env.newId].account.Some?
    ensures StartsWhatItCallsFor(d, account, acct, m, env, c)
  {
    NewRecallKept(d, account, acct, m, WindowOf(env), env, c);
    var row := c.t'[env.newId];
    RecallRowKeeps(d, account, acct, m, env, c.r.value.action);
    RecallRowKeeps(d, account, acct, m, env, Clarify);
    RecallRowKeeps(d, account, acct, m, env, Recalled);
    hide KeyTaken, InboundRow, WindowOf, IsRecentEcho, NoRecentEcho, RecallRow, KeepsMessage, MarkRecalled;
  }

  /** A message answered as new starts exactly what its action calls for: executed or routed, a
      delivery of its whole payload to the channel's consumer, if there is one; echoed back,
      the confirmation to its sender; recalled, the confirmation of the recall. */
  lemma NewMessageStarts(d: Deps, account: Uuid, acct: Account, m: Message, env: Reads, c: Change)
    requires Handled(d, account, acct, m, env, c) && KeyedById(c.t) && c.r.Ok? && !c.r.value.isReplay
    ensures IsNew(c, env) && c.t'[env.newId].parsed.Some? && c.t'[env.newId].account.Some?
    ensures StartsWhatItCallsFor(d, account, acct, m, env, c)
  {
    NewMessageIsKept(d, account, acct, m, env, c);
    ChannelAsRead(d, env);
    RecallWordIsOops(d.u, BodyOf(m));
    hide ResolveChannel, IsRecallWord, IsOops, RecallOutcome, PassthroughOutcome, StructuredOutcome;
    hide IsConversational, WindowOf, StartsWhatItCallsFor, KeepsDecision, KeepsExtras;
    var ch := ResolveChannel(d, env.channel);
    if IsRecallWord(d.u, Text(m)) {
      RecallStarts(d, account, acct, m, env, c);
    } else if ch.mode == Passthrough {
      PassthroughStarts(d, account, acct, m, env, c);
    } else {
      StructuredStarts(d, account, acct, m, env, c);
    }
  }

  // ----- From the text to the consumer -----

  predicate StartsForward(c: Change) {
    exists k: nat :: |c.jobs| <= k < |c.jobs'| && c.jobs'[k].ForwardJob?
  }

  predicate StartsEcho(c: Change) {
    exists k: nat :: |c.jobs| <= k < |c.jobs'| && c.jobs'[k].ReplyJob? && c.jobs'[k].kind == EchoedBack
  }

  /** Over all texts, address books and channels, a new message starts a delivery exactly when
      there is a consumer and, an OOPS apart, the channel is conversational, or the text parses
      and is an SOS or, not being held back, stands at the high threshold. It starts an echo
      exactly when, on a channel that is not conversational, it parses, is no SOS, and is held
      back or stands at the medium threshold only. */
  lemma HeardExactlyWhen(d: Deps, account: Uuid, acct: Account, m: Message, env: Reads, c: Change)
    requires Handled(d, account, acct, m, env, c) && KeyedById(c.t) && c.r.Ok? && !c.r.value.isReplay
    ensures var pr, th := Parsed(d.u, BodyOf(m), CommandsOf(d, env)), ThresholdsOf(d, env);
            var sos, held := ToUpper(d.u, pr.command) == "SOS", ToUpper(d.u, pr.command) in {"MISSING", "DAMAGE"};
            var standing := Standing(d.u, if env.addressBook.Some? then env.addressBook.value else [], pr);
            && (StartsForward(c) <==>
                  && HasConsumer(d, env) && !IsOops(d.u, BodyOf(m))
                  && (IsConversational(env) || (pr.ok && (sos || (!held && standing >= th.high)))))
            && (StartsEcho(c) <==>
                  && !IsOops(d.u, BodyOf(m)) && !IsConversational(env)
                  && pr.ok && !sos && (held || th.medium <= standing < th.high))
  {
    NewMessageIsKept(d, account, acct, m, env, c);
    NewMessageStarts(d, account, acct, m, env, c);
    hide Handled, KeepsDecision, StartsForward, StartsEcho, KeepsMessage, KeepsExtras, StartsWhatItCallsFor, KeyedById;
    hide IsOops, IsConversational, HasConsumer, ThresholdsOf, CommandsOf, Standing, Parsed, ToUpper;
    ActionGives(d, m, env, c.t'[env.newId]);
    JobsByAction(d, account, acct, m, env, c);
  }

  lemma ActionGives(d: Deps, m: Message, env: Reads, row: Row)
    requires row.parsed.Some? && KeepsDecision(d, m, env, row)
    ensures var pr, th := Parsed(d.u, BodyOf(m), CommandsOf(d, env)), ThresholdsOf(d, env);
            var sos, held := ToUpper(d.u, pr.command) == "SOS", ToUpper(d.u, pr.command) in {"MISSING", "DAMAGE"};
            var standing := Standing(d.u, if env.addressBook.Some? then env.addressBook.value else [], pr);
            && (row.action in {Execute, Routed} <==>
                  && !IsOops(d.u, BodyOf(m))
                  && (IsConversational(env) || (pr.ok && (sos || (!held && standing >= th.high)))))
            && (row.action == EchoBack <==>
                  && !IsOops(d.u, BodyOf(m)) && !IsConversational(env)
                  && pr.ok && !sos && (held || th.medium <= standing < th.high))
  {
    hide IsOops, IsConversational, ThresholdsOf, CommandsOf, Standing, Parsed, VerdictOn, ToUpper;
    var rows := if env.addressBook.Some? then env.addressBook.value else [];
    DecidesExactly(d.u, BodyOf(m), rows, CommandsOf(d, env), ThresholdsOf(d, env));
    DescribesTarget(d, m, env);
  }

  lemma JobsByAction(d: Deps, account: Uuid, acct: Account, m: Message, env: Reads, c: Change)
    requires IsNew(c, env) && c.t'[env.newId].parsed.Some? && c.t'[env.newId].account.Some?
    requires StartsWhatItCallsFor(d, account, acct, m, env, c)
    ensures var action := c.t'[env.newId].action;
            && (StartsForward(c) <==>
                  action in {Execute, Routed} && HasConsumer(d, env))
            && (StartsEcho(c) <==>
                  action == EchoBack)
  {
    hide TellsOf, IsEchoText, HasConsumer, IsRecentEcho, WindowOf, UrlOf;
    if c.jobs' != c.jobs {
      assert |c.jobs'| == |c.jobs| + 1;
      var job := c.jobs'[|c.jobs|];
      assert job.ForwardJob? ==> StartsForward(c);
      assert job.ReplyJob? && job.kind == EchoedBack ==> StartsEcho(c);
    }
  }

  // ----- What an OOPS recalls -----

  /** A message that was echoed back to this sender on this account, inside the window. */
  predicate Recallable(t: Table, id: Uuid, account: Uuid, endpoint: string, cutoff: int) {
    && id in t && t[id].account == Some(account) && endpoint != "" && t[id].senderEndpoint == Some(endpoint)
    && t[id].direction == Inbound && t[id].action == EchoBack && t[id].receivedAt >= cutoff
  }

  predicate NoneRecallable(t: Table, account: Uuid, endpoint: string, cutoff: int) {
    forall id :: id in t ==> !Recallable(t, id, account, endpoint, cutoff)
  }

  /** This message alone is recalled, the newest of those that may be, and quoted to the sender. */
  ghost predicate RecallsNewest(d: Deps, account: Uuid, acct: Account, m: Message, env: Reads, c: Change, echo: Uuid) {
    var cutoff := env.cutoffNow - WindowOf(env);
    && Recallable(c.t, echo, account, m.endpoint, cutoff)
    && (forall id :: Recallable(c.t, id, account, m.endpoint, cutoff) ==>
          c.t[id].receivedAt <= c.t[echo].receivedAt)
    && (forall id :: id in c.t ==>
          id in c.t' && c.t'[id] == if id == echo then c.t[id].(action := Recalled) else c.t[id])
    && c.jobs' == c.jobs + [ReplyJob(account, acct.tenant, echo, m.endpoint,
         "RECALLED — " + d.codec.quote(c.t[echo].bodyText) + " was not forwarded.", Recalled)]
  }

  /** When no call fails, a new OOPS recalls the newest message it may, and no other; if there
      is none it changes nothing. */
  lemma OopsRecallsTheNewest(d: Deps, account: Uuid, acct: Account, m: Message, env: Reads, c: Change)
    requires Handled(d, account, acct, m, env, c) && KeyedById(c.t) && IsOops(d.u, BodyOf(m))
    requires !c.faulty && env.newId !in c.t && !KeyTaken(c.t, account, m.platformId)
    ensures IsNew(c, env)
    ensures if NoneRecallable(c.t, account, m.endpoint, env.cutoffNow - WindowOf(env)) then
              && c.t'[env.newId].action == Clarify && c.jobs' == c.jobs
              && forall id :: id in c.t ==> id in c.t' && c.t'[id] == c.t[id]
            else
              c.t'[env.newId].action == Recalled && exists echo :: RecallsNewest(d, account, acct, m, env, c, echo)
  {
    HandledOops(d, account, acct, m, env, c);
    hide IsOops, Handled, WindowOf, Recallable, NoneRecallable, RecallsNewest, RecallOutcome, KeyTaken, KeyedById;
    if NoneRecallable(c.t, account, m.endpoint, env.cutoffNow - WindowOf(env)) {
      OopsRecallsNone(d, account, acct, m, env, c);
    } else {
      OopsRecallsOne(d, account, acct, m, env, c);
    }
  }

  lemma RecallRowActs(d: Deps, account: Uuid, acct: Account, m: Message, env: Reads, action: Action)
    ensures RecallRow(d, account, acct.tenant, m, action, env.newId, env.storedNow).action == action
  {}

  lemma OopsRecallsNone(d: Deps, account: Uuid, acct: Account, m: Message, env: Reads, c: Change)
    requires RecallOutcome(d, account, acct, m, WindowOf(env), env, c) && KeyedById(c.t)
    requires !c.faulty && env.newId !in c.t && !KeyTaken(c.t, account, m.platformId)
    requires NoneRecallable(c.t, account, m.endpoint, env.cutoffNow - WindowOf(env))
    ensures IsNew(c, env) && c.t'[env.newId].action == Clarify && c.jobs' == c.jobs
    ensures forall id :: id in c.t ==> id in c.t' && c.t'[id] == c.t[id]
  {
    EchoesAre(c.t, account, m.endpoint, env.cutoffNow - WindowOf(env));
    hide WindowOf, Recallable, NoneRecallable, RecallOutcome, KeyTaken, KeyedById, NoRecentEcho, IsRecentEcho;
    hide InboundRow;
    RecallHitsTheNewestEcho(d, account, acct, m, WindowOf(env), env, c);
    RecallRowActs(d, account, acct, m, env, Clarify);
    hide RecallRow;
  }

  lemma OopsRecallsOne(d: Deps, account: Uuid, acct: Account, m: Message, env: Reads, c: Change)
    requires RecallOutcome(d, account, acct, m, WindowOf(env), env, c) && KeyedById(c.t)
    requires !c.faulty && env.newId !in c.t && !KeyTaken(c.t, account, m.platformId)
    requires !NoneRecallable(c.t, account, m.endpoint, env.cutoffNow - WindowOf(env))
    ensures IsNew(c, env) && c.t'[env.newId].action == Recalled
    ensures exists echo :: RecallsNewest(d, account, acct, m, env, c, echo)
  {
    var cutoff := env.cutoffNow - WindowOf(env);
    EchoesAre(c.t, account, m.endpoint, cutoff);
    hide WindowOf, Recallable, NoneRecallable, RecallOutcome, KeyTaken, KeyedById, NoRecentEcho, IsRecentEcho;
    hide InboundRow;
    RecallHitsTheNewestEcho(d, account, acct, m, WindowOf(env), env, c);
    RecallRowActs(d, account, acct, m, env, Recalled);
    hide RecallRow;
    var echo :|
      && IsRecentEcho(c.t, account, TextOrNull(m.endpoint), cutoff, echo) && echo in c.t && echo in c.t'
      && c.t'[echo] == c.t[echo].(action := Recalled)
      && (forall id :: id in c.t && id != echo ==> c.t'[id] == c.t[id])
      && c.jobs' == c.jobs + [RecallJob(d, account, acct.tenant, m.endpoint, echo, c.t[echo].bodyText)];
    assert RecallsNewest(d, account, acct, m, env, c, echo);
  }

  lemma HandledOops(d: Deps, account: Uuid, acct: Account, m: Message, env: Reads, c: Change)
    requires Handled(d, account, acct, m, env, c) && IsOops(d.u, BodyOf(m))
    ensures RecallOutcome(d, account, acct, m, WindowOf(env), env, c)
  {
    ChannelAsRead(d, env);
    RecallWordIsOops(d.u, BodyOf(m));
    hide IsOops, IsRecallWord, ResolveChannel, RecallOutcome, WindowOf;
  }

  lemma EchoesAre(t: Table, account: Uuid, endpoint: string, cutoff: int)
    ensures NoRecentEcho(t, account, TextOrNull(endpoint), cutoff) <==> NoneRecallable(t, account, endpoint, cutoff)
    ensures forall echo :: IsRecentEcho(t, account, TextOrNull(endpoint), cutoff, echo) ==> echo in t
    ensures forall echo :: IsRecentEcho(t, account, TextOrNull(endpoint), cutoff, echo) <==>
              && Recallable(t, echo, account, endpoint, cutoff)
              && forall id :: Recallable(t, id, account, endpoint, cutoff) ==> t[id].receivedAt <= t[echo].receivedAt
  {
    assert forall id :: Recallable(t, id, account, endpoint, cutoff) <==>
                        id in t && IsEchoOf(t[id], account, TextOrNull(endpoint), cutoff);
  }
}
