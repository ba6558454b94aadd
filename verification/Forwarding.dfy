/** The consumer payload, built live by ingest and rebuilt from the stored row by replay. */
module Forwarding {
  import opened Wrappers
  import opened Canonical
  import opened Policy
  import opened Decision
  import opened Messages

  datatype ForwardBody = ForwardBody(
    messageId: string, tenantId: string, channelId: string, accountId: string, accountType: string,
    platform: string, contactId: string, senderEndpoint: string, command: string, payload: string,
    text: string, attachments: Option<string>, location: Option<Location>, receivedAt: string)

  /** `outbound.Platform`: the transport of an account type. */
  function PlatformOf(accountType: string): string {
    if accountType == "whatsapp" || accountType == "whatsapp-twilio" then "whatsapp"
    else if accountType == "sms-twilio" then "sms"
    else if accountType == "email-ses" then "email"
    else accountType
  }

  // ----- Locations on their way through the database -----

  /** `SRID=4326;POINT(first second)`, or the empty text for no location. */
  datatype Ewkt = NoPoint | EwktPoint(srid: nat, first: real, second: real)

  function EwktOf(l: Option<Location>): Ewkt {
    match l
    case None => NoPoint
    case Some(l) => EwktPoint(4326, l.lng, l.lat)
  }

  /** The geography PostGIS reads: the first ordinate is x. */
  function StoredPoint(e: Ewkt): Option<Point> {
    match e
    case NoPoint => None
    case EwktPoint(_, first, second) => Some(Point(first, second))
  }

  /** The coordinates of `ST_AsGeoJSON`: x, then y (section 3.1.1 of RFC 7946). */
  function GeoJsonCoordinates(p: Option<Point>): Option<seq<real>> {
    match p
    case None => None
    case Some(p) => Some([p.x, p.y])
  }

  /** The location a replay sends; none unless there are two coordinates. */
  function LocationOf(coordinates: Option<seq<real>>): Option<Location> {
    match coordinates
    case None => None
    case Some(c) => if |c| < 2 then None else Some(Location(c[1], c[0]))
  }

  // ----- The row and the two payloads -----

  /** The row ingest inserts for a message it has decided on. */
  function InboundRow(c: Codec, account: Uuid, tenant: Uuid, channel: Option<Uuid>, m: Message, doc: Doc,
                      action: Action, id: Uuid, now: int): (r: Row)
    ensures r.account == Some(account) && r.id == id && r.action == action && r.platformId == m.platformId
  {
    Row(id, tenant, Some(account), channel, Inbound, None, None, TextOrNull(m.endpoint), Text(m),
        AttachmentsOf(c, m), StoredPoint(EwktOf(m.location)), Some(doc), action, false, None, m.platformId,
        Verbatim(m.rawPayload), ReceivedAt(c, m, now), Some(now))
  }

  /** `ingest.buildForward`; `now` is the clock read for it, which is not the one stored. */
  function LivePayload(c: Codec, account: Uuid, acct: Account, channel: Option<Uuid>, m: Message, doc: Doc,
                       id: Uuid, now: int): ForwardBody
  {
    ForwardBody(
      c.showId(id), c.showId(acct.tenant),
      if channel.Some? then c.showId(channel.value) else "",
      c.showId(account), acct.type_, PlatformOf(acct.type_),
      if doc.contactId.Some? then c.showId(doc.contactId.value) else "",
      m.endpoint, doc.command, doc.payload, Text(m), AttachmentsOf(c, m), m.location,
      c.formatTime(ReceivedAt(c, m, now)))
  }

  /** The contact id as `parsed` holds it: its text, or nothing for null. */
  function StoredContact(c: Codec, doc: Doc): string {
    if doc.contactId.Some? then c.showId(doc.contactId.value) else ""
  }

  /** `replay.buildForward` on a stored row joined with its account. */
  function ReplayPayload(c: Codec, r: Row, accountType: string): ForwardBody {
    var stored := if r.parsed.Some? then StoredContact(c, r.parsed.value) else "";
    ForwardBody(
      c.showId(r.id), c.showId(r.tenant),
      if r.channel.Some? then c.showId(r.channel.value) else "",
      if r.account.Some? then c.showId(r.account.value) else "",
      accountType, PlatformOf(accountType),
      if stored != "" && stored != c.showId(NIL) then stored else "",
      if r.senderEndpoint.Some? then r.senderEndpoint.value else "",
      if r.parsed.Some? then r.parsed.value.command else "",
      if r.parsed.Some? then r.parsed.value.payload else "",
      r.bodyText,
      if r.attachments.Some? && r.attachments.value != "" then r.attachments else None,
      LocationOf(GeoJsonCoordinates(r.location)),
      c.formatTime(r.receivedAt))
  }

  /** The coordinates the other way round. */
  function Swapped(coordinates: Option<seq<real>>): Option<seq<real>> {
    match coordinates
    case None => None
    case Some(c) => if |c| < 2 then coordinates else Some([c[1], c[0]] + c[2..])
  }

  /** A location comes back from the database as it was sent, longitude and latitude in
      their places; read the other way round it would do so only on the diagonal. */
  lemma LocationSurvives(l: Option<Location>)
    ensures LocationOf(GeoJsonCoordinates(StoredPoint(EwktOf(l)))) == l
    ensures LocationOf(Swapped(GeoJsonCoordinates(StoredPoint(EwktOf(l))))) == l <==>
            l.None? || l.value.lat == l.value.lng
  {}

  /** Replaying a stored message sends exactly what the live forward sent, in either mode,
      if and only if the resolved contact is not the all-zero UUID and the two clock reads
      print alike or were not needed. */
  lemma ReplaySendsTheSame(c: Codec, account: Uuid, acct: Account, channel: Option<Uuid>, m: Message, doc: Doc,
                           action: Action, id: Uuid, stored: int, live: int)
    requires Faithful(c)
    ensures var row := InboundRow(c, account, acct.tenant, channel, m, doc, action, id, stored);
            ReplayPayload(c, row, acct.type_) == LivePayload(c, account, acct, channel, m, doc, id, live) <==>
            doc.contactId != Some(NIL)
            && (c.parseTime(m.receivedAt).Some? || c.formatTime(stored) == c.formatTime(live))
  {
    var row := InboundRow(c, account, acct.tenant, channel, m, doc, action, id, stored);
    var replayed := ReplayPayload(c, row, acct.type_);
    var sent := LivePayload(c, account, acct, channel, m, doc, id, live);
    LocationSurvives(m.location);
    assert replayed.contactId == sent.contactId <==> doc.contactId != Some(NIL);
    assert c.parseTime(m.receivedAt).Some? ==> ReceivedAt(c, m, stored) == ReceivedAt(c, m, live);
    assert replayed.attachments == sent.attachments;
    assert replayed == sent.(contactId := replayed.contactId, receivedAt := replayed.receivedAt);
  }

  /** No time parses, and the clock prints as one of two texts. */
  const COARSE := Codec(
    (s: string) => None, (t: int) => if t <= 0 then "before" else "after", (id: Uuid) => if id == 0 then "0" else "1",
    (s: string) => None, (a: seq<Attachment>) => None, (s: string) => s, (n: int) => "")

  /** A message without a readable time is stored at one clock reading and forwarded at another:
      where the two print differently the replay sends another time than the live forward did,
      and whatever else it sends is the same unless the contact is the all-zero UUID. */
  lemma UnreadableTimeIsReplayedDifferently(c: Codec, account: Uuid, acct: Account, channel: Option<Uuid>, m: Message,
                                            doc: Doc, action: Action, id: Uuid, stored: int, live: int)
    requires Faithful(c) && c.parseTime(m.receivedAt).None? && c.formatTime(stored) != c.formatTime(live)
    ensures var replayed := ReplayPayload(c, InboundRow(c, account, acct.tenant, channel, m, doc, action, id, stored),
                                          acct.type_);
            var sent := LivePayload(c, account, acct, channel, m, doc, id, live);
            && replayed.receivedAt == c.formatTime(stored) != c.formatTime(live) == sent.receivedAt
            && (replayed.(receivedAt := sent.receivedAt) == sent <==> doc.contactId != Some(NIL))
  {
    ReplaySendsTheSame(c, account, acct, channel, m, doc, action, id, stored, stored);
  }

  /** There are such codecs and readings. */
  lemma TheClockMayTurn(text: string)
    ensures Faithful(COARSE) && COARSE.parseTime(text).None? && COARSE.formatTime(0) != COARSE.formatTime(1)
  {}

  /** What redaction leaves of a payload: nothing of the text, the sender, the place. */
  lemma RedactedPayloadIsBare(c: Codec, r: Row, accountType: string)
    ensures var p := ReplayPayload(c, Redact(r), accountType);
            p.text == "" && p.senderEndpoint == "" && p.attachments == None && p.location == None
  {}
}
