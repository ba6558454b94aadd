/** The `messages` table: what its rows hold, and what each SQL statement of
    `queries/goqueries` reads or changes, one atomic step per statement. */
module Messages {
  import opened Wrappers
  import opened Policy
  import opened Decision

  datatype Direction = Inbound | Outbound

  /** A geography point: x is the longitude, y the latitude. */
  datatype Point = Point(x: real, y: real)

  /** The provider's envelope, verbatim until it is redacted. */
  datatype RawPayload = Verbatim(text: string) | RedactedPayload

  datatype Row = Row(
    id: Uuid, tenant: Uuid, account: Option<Uuid>, channel: Option<Uuid>, direction: Direction,
    senderContact: Option<Uuid>, recipientContact: Option<Uuid>, senderEndpoint: Option<string>,
    bodyText: string, attachments: Option<string>, location: Option<Point>, parsed: Option<Doc>,
    action: Action, fired: bool, inReplyTo: Option<Uuid>, platformId: string, raw: RawPayload,
    receivedAt: int, processedAt: Option<int>)

  type Table = map<Uuid, Row>

  /** Rows are stored under their primary key. */
  ghost predicate KeyedById(t: Table) {
    forall id :: id in t ==> t[id].id == id
  }

  // ----- Statements -----

  function Matching(t: Table, p: Row -> bool): set<Uuid> {
    set id | id in t && p(t[id])
  }

  function UpdateWhere(t: Table, p: Row -> bool, f: Row -> Row): (t': Table)
    ensures t'.Keys == t.Keys
  {
    map id | id in t :: if p(t[id]) then f(t[id]) else t[id]
  }

  function DeleteWhere(t: Table, p: Row -> bool): (t': Table)
    ensures t'.Keys == t.Keys - Matching(t, p)
  {
    map id | id in t && !p(t[id]) :: t[id]
  }

  /** `in_reply_to_message_id REFERENCES messages(id)`: no link is left dangling. */
  ghost predicate ForeignKeyHolds(t: Table) {
    forall id :: id in t && t[id].inReplyTo.Some? ==> t[id].inReplyTo.value in t
  }

  /** Every reply link points to an existing row of the same tenant. */
  ghost predicate LinksSound(t: Table) {
    forall id :: id in t && t[id].inReplyTo.Some? ==>
      t[id].inReplyTo.value in t && t[t[id].inReplyTo.value].tenant == t[id].tenant
  }

  // ----- Inserts -----

  predicate HasKey(r: Row, account: Uuid, platformId: string) {
    r.account == Some(account) && r.platformId == platformId
  }

  /** The unique key (account_id, platform_message_id), shared by both directions. */
  predicate KeyTaken(t: Table, account: Uuid, platformId: string) {
    exists id :: id in t && HasKey(t[id], account, platformId)
  }

  /** Rows without an account never clash: NULLs are distinct. */
  predicate SameKey(r: Row, r': Row) {
    r.account.Some? && r.account == r'.account && r.platformId == r'.platformId
  }

  ghost predicate KeysUnique(t: Table) {
    forall id, id' :: id in t && id' in t && SameKey(t[id], t[id']) ==> id == id'
  }

  /** ON CONFLICT DO NOTHING: a row whose key is taken is not inserted. */
  function InsertInbound(t: Table, r: Row): Table
    requires r.account.Some?
  {
    if KeyTaken(t, r.account.value, r.platformId) then t else t[r.id := r]
  }

  /** An outbound row must satisfy both constraints. */
  predicate OutboundAllowed(t: Table, r: Row) {
    && (r.account.Some? ==> !KeyTaken(t, r.account.value, r.platformId))
    && (r.inReplyTo.Some? ==> r.inReplyTo.value in t)
  }

  // ----- Recall -----

  predicate IsEchoOf(r: Row, account: Uuid, endpoint: Option<string>, cutoff: int) {
    && r.account == Some(account) && endpoint.Some? && r.senderEndpoint == endpoint
    && r.direction == Inbound && r.action == EchoBack && r.receivedAt >= cutoff
  }

  /** `FindRecentEchoForSender` may return `id`: an echo in the window and none newer. */
  ghost predicate IsRecentEcho(t: Table, account: Uuid, endpoint: Option<string>, cutoff: int, id: Uuid) {
    && id in t && IsEchoOf(t[id], account, endpoint, cutoff)
    && forall id' :: id' in t && IsEchoOf(t[id'], account, endpoint, cutoff) ==> t[id'].receivedAt <= t[id].receivedAt
  }

  ghost predicate NoRecentEcho(t: Table, account: Uuid, endpoint: Option<string>, cutoff: int) {
    forall id :: id in t ==> !IsEchoOf(t[id], account, endpoint, cutoff)
  }

  function WithId(id: Uuid): Row -> bool {
    (r: Row) => r.id == id
  }

  function MarkRecalled(t: Table, id: Uuid): Table {
    UpdateWhere(t, WithId(id), (r: Row) => r.(action := Recalled))
  }

  function MarkFired(t: Table, id: Uuid): Table {
    UpdateWhere(t, WithId(id), (r: Row) => r.(fired := true))
  }

  // ----- Retention -----

  function OlderThan(tenant: Uuid, cutoff: int): Row -> bool {
    (r: Row) => r.tenant == tenant && r.receivedAt < cutoff
  }

  /** The tenant's replies to its messages older than the cutoff. */
  function RepliesToOlder(t: Table, tenant: Uuid, cutoff: int): Row -> bool {
    (r: Row) => r.tenant == tenant && r.inReplyTo.Some? && r.inReplyTo.value in t
         && OlderThan(tenant, cutoff)(t[r.inReplyTo.value])
  }

  function ClearLink(r: Row): Row {
    r.(inReplyTo := None)
  }

  function FromEndpoint(tenant: Uuid, endpoint: string): Row -> bool {
    (r: Row) => r.tenant == tenant && r.senderEndpoint == Some(endpoint)
  }

  function OfContact(tenant: Uuid, contact: Uuid): Row -> bool {
    (r: Row) => r.tenant == tenant && (r.senderContact == Some(contact) || r.recipientContact == Some(contact))
  }

  /** Redaction strips the personal columns and merges a flag into `parsed`; the other
      fields of `parsed` stay. */
  function Redact(r: Row): Row {
    r.(senderEndpoint := None, bodyText := "", attachments := None, location := None, raw := RedactedPayload,
       parsed := Some((if r.parsed.Some? then r.parsed.value else EMPTY_DOC).(redacted := true)))
  }

  /** Detaching clears both contact columns. */
  function Detach(r: Row): Row {
    r.(senderContact := None, recipientContact := None)
  }

  // ----- Unfired forwards -----

  datatype Channel = Channel(workflowUrl: Option<string>)

  datatype Account = Account(tenant: Uuid, type_: string, active: bool)

  predicate HasWorkflow(channels: map<Uuid, Channel>, channel: Option<Uuid>) {
    && channel.Some? && channel.value in channels
    && channels[channel.value].workflowUrl.Some? && channels[channel.value].workflowUrl.value != ""
  }

  /** The WHERE clause of `ListUnfiredForwards` without its time and channel filters. */
  predicate IsUnfiredForward(r: Row, tenant: Uuid, channels: map<Uuid, Channel>, accounts: map<Uuid, Account>) {
    && HasWorkflow(channels, r.channel) && r.account.Some? && r.account.value in accounts
    && r.tenant == tenant && r.direction == Inbound && !r.fired && r.action in {Routed, Execute}
  }

  predicate IsCandidate(r: Row, tenant: Uuid, channels: map<Uuid, Channel>, accounts: map<Uuid, Account>,
                        since: int, channel: Option<Uuid>) {
    && IsUnfiredForward(r, tenant, channels, accounts)
    && r.receivedAt >= since && (channel.Some? ==> r.channel == channel)
  }

  /** The whole WHERE clause. */
  function Candidates(tenant: Uuid, channels: map<Uuid, Channel>, accounts: map<Uuid, Account>, since: int,
                      channel: Option<Uuid>): Row -> bool
  {
    (r: Row) => IsCandidate(r, tenant, channels, accounts, since, channel)
  }

  /** `ListUnfiredForwards` may return `rows`: distinct candidates, oldest first, at most
      `limit` of them, and no candidate left out is older than one returned. */
  ghost predicate IsUnfiredListing(t: Table, p: Row -> bool, limit: nat, rows: seq<Row>) {
    && |rows| <= limit
    && (forall i :: 0 <= i < |rows| ==> rows[i].id in t && t[rows[i].id] == rows[i] && p(rows[i]))
    && (forall i, j :: 0 <= i < j < |rows| ==> rows[i].id != rows[j].id && rows[i].receivedAt <= rows[j].receivedAt)
    && (forall id :: id in t && p(t[id]) && t[id] !in rows ==>
          |rows| == limit && forall i :: 0 <= i < |rows| ==> rows[i].receivedAt <= t[id].receivedAt)
  }
}
