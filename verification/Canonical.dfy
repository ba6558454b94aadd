/** The canonical inbound message, and the conversions the service takes from its libraries. */
module Canonical {
  import opened Wrappers

  datatype Attachment = Attachment(kind: string, url: string, mime: Option<string>, filename: Option<string>)

  datatype Location = Location(lat: real, lng: real)

  datatype Message = Message(
    endpoint: string, text: Option<string>, attachments: seq<Attachment>, location: Option<Location>,
    platformId: string, receivedAt: string, accountId: string, rawPayload: string)

  /** RFC 3339 times, UUID text, the JSON of attachments, and the `%q` and `%d` of `fmt`. */
  datatype Codec = Codec(
    parseTime: string -> Option<int>,
    formatTime: int -> string,
    showId: Uuid -> string,
    parseId: string -> Option<Uuid>,
    attachmentsJson: seq<Attachment> -> Option<string>,
    quote: string -> string,
    decimal: int -> string)

  /** No UUID prints as nothing, only the all-zero one prints as it does, and JSON text is
      never empty. */
  ghost predicate Faithful(c: Codec) {
    && (forall id :: c.showId(id) != "" && (c.showId(id) == c.showId(NIL) ==> id == NIL))
    && (forall a :: c.attachmentsJson(a) != Some(""))
  }

  function Text(m: Message): string {
    match m.text
    case None => ""
    case Some(s) => s
  }

  /** The text, or NULL for none. */
  function TextOrNull(s: string): Option<string> {
    if s == "" then None else Some(s)
  }

  /** The JSON of the attachments; nothing for none, or when it cannot be made. */
  function AttachmentsOf(c: Codec, m: Message): Option<string> {
    if m.attachments == [] then None else c.attachmentsJson(m.attachments)
  }

  /** The time the webhook reported, or the clock when it does not parse. */
  function ReceivedAt(c: Codec, m: Message, now: int): int {
    match c.parseTime(m.receivedAt)
    case Some(t) => t
    case None => now
  }
}
