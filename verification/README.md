# Verified model of the message hub

The hub receives text messages from messaging platforms, understands them
without any learned model, stores each once, and forwards it to a consumer,
echoes it back for confirmation, or asks the sender to be clearer. This project
models three parts of it and proves what they promise.

**Understanding a text.** `EditDistance`, `Soundex`, `Resolver`, `Parser`,
`Policy` and `Decision` follow the Go functions loop by loop. Each is proved
equal to a definition of what it means: a shortest edit script, American Soundex
as a pipeline, the first nearest row, a grammar stated on the text (`Grammar`)
that can be printed and read back, and exact conditions for executing a message,
echoing it back or asking for more.

**The life of a message.** `Messages` gives each SQL statement its meaning as a
function on the table. `Store` wraps them in a database whose every call may
fail, before or after taking effect. `Ingest`, `Replay`, `Retention`,
`OutboundApi`, `Queue` and `Workflow` are the services, as classes and methods
over that database, each with its outcome after any failure; `IngestEffects`
says what one message does by the message and the rows it meets alone.
`Lifecycle` puts the same statements into one step system in which deliveries,
ingest calls, background jobs, API replies, replay runs and retention statements interleave
in every way; `LifecycleInvariants` and `LifecycleSteps` prove what each step
keeps and `LifecycleSafety`, `LifecycleRecall` and `LifecycleRetention` what
follows for whole runs. `IngestRefinement` and `ServiceRefinement` tie the two together: whatever ingest, a background or an
API reply, a replay run, an erasure or a purge may leave behind when handled
alone, failures included, a sequence of steps leaves behind; and steps from the
end of a run make a longer run (`Lifecycle.RunGoesOn`), so what holds of every
run holds after such a call.

**Fast forms and simple ones.** `Keyset` and `Export` relate paged export of a
changing table to the sorted table. `Dsn` relates the hand-written URL cutter
to a reader of PostgreSQL's keyword/value strings (section 34.1.1.1 of its
documentation). `Forwarding` relates the replayed payload to the live one
(axis order by section 3.1.1 of RFC 7946). `LookupCache` relates the account
cache to the authority behind it.

## Conventions

- `Uuid` is a natural number, 0 being the all-zero id. Times are whole seconds
  since 1970. A `char` is one rune. `Unicode` is a record of the character
  functions the Go libraries supply, and every theorem holds for all of them
  that meet the hypotheses it states.
- What a call into the database, the network or a clock gives is a parameter or
  an unconstrained choice. In the step system, fresh ids have never been used
  before (random UUIDs), and accounts keep their tenant and type
  (implementations/channels-go/internal/queries/goqueries/accounts.sql.go:275-282 changes neither).
- A failed call leaves its caller with an error and no more. The ghost counter
  `faults` of `Store.Database` counts them (`refusals` that of the publisher), so
  that each service can say what it does when none fails.
- A queue entry may become visible again at any time, even after it was
  acknowledged, and may be moved to the dead-letter queue; this covers both
  queues of the webhook.
- Where the code and its own comments disagree, the code is modelled:
  implementations/channels-go/internal/export/export.go:105-108 says that rows
  arriving during an export are never skipped. One that arrives behind the cursor
  is: `Export.ExportSkipsALateRow` is such an input, and every finished export
  meets the exact condition (`LateRowsDecided` in the contract of
  `Export.ExportMessages`).
- Promises that hold only under a condition are stated with that condition, in
  both directions: the printed parse, the replayed payload, the converted URL,
  the erasure counts, the purge alone and interleaved.

## Model

| member | source | states |
|---|---|---|
| `EditDistance.Levenshtein` | implementations/channels-go/internal/strdist/strdist.go:10-29 | The two arrays, filled and swapped, give the least number of one-character deletions, insertions and substitutions over all edit scripts: some script attains it and none is shorter. |
| `EditDistance.DistanceIsLeastEdits` | implementations/channels-go/internal/strdist/strdist.go:8-29 | The recurrence the table is filled with is the length of a shortest edit script, for all pairs of texts. |
| `EditDistance.LengthBounds` | implementations/channels-go/internal/strdist/strdist.go:10-29 | The distance lies between the difference of the lengths and the longer length. |
| `EditDistance.ZeroIffEqual` | implementations/channels-go/internal/strdist/strdist.go:10-29 | It is zero exactly for equal texts. |
| `EditDistance.Symmetric` | implementations/channels-go/internal/strdist/strdist.go:10-29 | It does not depend on the order of its arguments. |
| `EditDistance.Triangle` | implementations/channels-go/internal/strdist/strdist.go:10-29 | Going through a third text is never shorter. |
| `Soundex.Soundex` | implementations/channels-go/internal/strdist/strdist.go:44-80 | The scanner, with its running code and its cut-off, equals American Soundex stated as separate steps: drop later H and W, collapse equal adjacent codes, drop vowels, keep three digits, pad with zeros. |
| `Soundex.CodeShape` | implementations/channels-go/internal/strdist/strdist.go:41-80 | The code is empty exactly for a text without letters, and otherwise a letter and three digits. |
| `Soundex.NonLettersIgnored` | implementations/channels-go/internal/strdist/strdist.go:45-51 | Inserting anything that is not a letter, anywhere, leaves the code as it was. |
| `Soundex.LaterHWIgnored` | implementations/channels-go/internal/strdist/strdist.go:58-76 | Inserting an H or W anywhere after the first letter leaves the code as it was. |
| `Soundex.CaseIgnored` | implementations/channels-go/internal/strdist/strdist.go:44-51 | Texts that differ in case only have the same code. |
| `Soundex.LetterGroups` | implementations/channels-go/internal/strdist/strdist.go:82-101 | Which letters share a digit: the six groups as strings, and no digit for vowels, Y, H and W. |
| `Soundex.SameGroupsSameCode` | implementations/channels-go/internal/strdist/strdist.go:44-80 | After a common first letter only the groups count: texts whose letters lie in the same groups, place by place, have the same code. |
| `Soundex.KnownCodes` | implementations/channels-go/internal/strdist/strdist_test.go:26-42 | The published codes of Ashcraft, where an H does not part two letters of one group, and of Tymczak, where a vowel does. |
| `Resolver.Resolve` | implementations/channels-go/internal/resolver/resolver.go:56-101 | The scan with its running best, its early return on an exact row and its final sort equals a resolution defined by the first nearest row. |
| `Resolver.NearestRowDecides` | implementations/channels-go/internal/resolver/resolver.go:66-100 | The kind is exact, one edit, two edits or none by the least distance to any row, and the contact is that of the first row attaining it. |
| `Resolver.AlternativesAreExactlyTheSuggestions` | implementations/channels-go/internal/resolver/resolver.go:76-89 | On a result that is not exact the alternatives are exactly the entries (short id, contact, distance) of the rows within two edits or with the same Soundex code, stably sorted by distance. |
| `Resolver.SuggestionsComplete` | implementations/channels-go/internal/resolver/resolver.go:76-83 | A suggestion is collected exactly for each row within two edits or sounding alike. |
| `Resolver.SortIsStable` | implementations/channels-go/internal/resolver/resolver.go:89 | The sort orders by distance and keeps equal distances in address-book order. |
| `Resolver.StableSortIsUnique` | implementations/channels-go/internal/resolver/resolver.go:89 | Any two stable sorts of the same suggestions are equal, so the library's sort can give nothing else. |
| `Resolver.NearMatchIsFirstAlternative` | implementations/channels-go/internal/resolver/resolver.go:89-100 | A match one or two edits away is always the first alternative. |
| `Resolver.OnlyOneRowIsNear` | implementations/channels-go/internal/resolver/resolver.go:66-100 | When folded short ids are pairwise five or more edits apart, at most one row is within two edits of anything (by the triangle inequality). |
| `Resolver.OrderDoesNotMatter` | implementations/channels-go/internal/resolver/resolver.go:56-101 | In such an address book every ordering of the rows resolves to the same kind and contact. |
| `Parser.Parse` | implementations/channels-go/internal/parser/parser.go:44-82 | The field-by-field parse equals the grammar given as a function, including the fall-through where `to` or the arrow is itself the command. |
| `Parser.IsValidShortId` | implementations/channels-go/internal/parser/parser.go:95-104 | A short id is one to eight letters or digits. |
| `Parser.HasFold` | implementations/channels-go/internal/parser/parser.go:106-113 | A command is known exactly when some configured command equals it up to case folding. |
| `Parser.PrintThenParse` | implementations/channels-go/internal/parser/parser.go:44-93 | Every successful parse, printed with any white space between and around its tokens, is read back unchanged if and only if upper-casing its command neither makes it known or unknown nor turns it into a `to` before a target. |
| `Parser.PrintThenParseIsIdentity` | implementations/channels-go/internal/parser/parser.go:44-93 | Where upper-casing keeps the case folding of every character, the round trip is the identity for all texts. |
| `Parser.FallThroughHasNoTarget` | implementations/channels-go/internal/parser/parser.go:64-81 | A `to` or an arrow that was read as the command is not followed by a target. |
| `Parser.DotlessCommandIsNotReadBack` | implementations/channels-go/internal/parser/parser.go:76-81 | A concrete text for which the round trip fails: a dotless i upper-cases to I, which folds differently. |
| `Grammar.ParsesExactlyWhen` | implementations/channels-go/internal/parser/parser.go:44-60 | A text parses if and only if it is a short id of one to eight letters or digits followed by something more, with white space between and around. |
| `Grammar.TargetTexts` | implementations/channels-go/internal/parser/parser.go:62-74 | After the id, the arrow or a `to` in any letter case, and `@target`, give that target and the trimmed rest as payload, with no command. |
| `Grammar.CommandTexts` | implementations/channels-go/internal/parser/parser.go:76-82 | Otherwise the first token, upper-cased, is the command, known if a configured command equals it up to case folding, and the trimmed rest is the payload. |
| `Policy.Score` | implementations/channels-go/internal/policy/policy.go:39-69 | The step-by-step product is the product of the three independent factors, and lies between 0 and 1. |
| `Policy.GateExactly` | implementations/channels-go/internal/policy/policy.go:71-94 | For every kind of target, confidence and thresholds: executed, echoed back or clarified exactly when; an SOS is executed even for a group. |
| `Decision.DecideText` | implementations/channels-go/internal/ingest/ingest.go:456-492 | The decision, its document built up field by field, is the verdict on the parse and the resolution; a text that does not parse never asks for the address book. |
| `Decision.DecidesExactly` | implementations/channels-go/internal/policy/policy.go:39-94 | Over all texts, address books and thresholds, by the edit distance to the nearest row: executed, echoed back or clarified exactly when; the confidence stored is that of a table of nine cases. |
| `Decision.DocumentHoldsAll` | implementations/channels-go/internal/ingest/ingest.go:456-492 | The stored document determines the whole parse, names the first nearest contact exactly when some row is within two edits, and the sender is told the target or else the short id. |
| `Decision.ExecutesExactlyWhen` | implementations/channels-go/internal/ingest/ingest.go:456-492 | With the high threshold above 0.8, over all texts and address books: executed if and only if the text parses and is an SOS, or is an exact short id with a known command that is not held, no target, and a threshold of at most 1. |
| `Decision.UnknownCommandExecutesExactlyWhen` | implementations/channels-go/internal/policy/policy.go:60-94 | The bound 0.8 is tight: an unknown command to an exact short id executes exactly when the high threshold is 0.8 or lower. |
| `Decision.HeldCommandsNeverExecute` | implementations/channels-go/internal/policy/policy.go:80-84 | MISSING and DAMAGE are never executed, whatever the address book and thresholds. |
| `Decision.NearerMatchNeverLowers` | implementations/channels-go/internal/ingest/ingest.go:481-490 | A nearer short-id match never lowers the action of a text. |
| `Decision.MoreContactsNeverLower` | implementations/channels-go/internal/ingest/ingest.go:474-490 | Adding contacts to the address book never lowers the action of a text. |
| `Store.Database.CreateInbound` | implementations/channels-go/internal/queries/goqueries/messages.sql.go:17-28 | Insert on conflict do nothing: exactly one row is added when the key is free, none when it is taken, and a failure may or may not have inserted. |
| `Store.Database.CreateOutbound` | implementations/channels-go/internal/queries/goqueries/messages.sql.go:76-86 | The insert is refused when the key is taken or the reply link has no target. |
| `Store.Database.FindRecentEcho` | implementations/channels-go/internal/queries/goqueries/messages.sql.go:118-127 | The row found is an echo of that account and sender inside the window, and none is newer. |
| `Store.Database.GetMessageId` | implementations/channels-go/internal/queries/goqueries/messages.sql.go:181-184 | The id found holds the key; no row means that the key is free. |
| `Store.Database.ListOldest` | implementations/channels-go/internal/queries/goqueries/messages.sql.go:262-284 | The listing holds distinct matching rows, oldest first, within the limit, and leaves out none older than one it returns. |
| `Store.Database.Update` | implementations/channels-go/internal/queries/goqueries/messages.sql.go:352-363 | An update changes exactly the matching rows and reports their number; a failure changed all of them or none. |
| `Store.Database.Delete` | implementations/channels-go/internal/queries/goqueries/retention.sql.go:181-183 | A delete removes exactly the matching rows, and is refused when a row that stays links to one that goes. |
| `Forwarding.ReplaySendsTheSame` | implementations/channels-go/internal/replay/replay.go:238-272 | Over all messages, structured or passthrough: the replayed payload of the stored row equals the live one if and only if the contact is not the all-zero id and the two clock reads print alike or were not needed. |
| `Forwarding.UnreadableTimeIsReplayedDifferently` | implementations/channels-go/internal/ingest/ingest.go:555-560 | For every message without a readable time and any two clock readings that print differently: the replay sends the time stored, the live forward another, and the rest of the two payloads agrees if and only if the contact is not the all-zero id. |
| `Forwarding.LocationSurvives` | implementations/channels-go/internal/replay/replay.go:221-234 | A location written longitude first comes back from GeoJSON (section 3.1.1 of RFC 7946) with both ordinates in their places, and none stays none; read the other way round it would come back only where latitude equals longitude. |
| `Workflow.Forward` | implementations/channels-go/internal/workflow/workflow.go:80-125 | Delivery succeeds if and only if some allowed try is reached and answered 2xx; it goes on only after no answer, an answer outside 2xx and 4xx, or a 401, 403, 408 or 429; it stops at any other, and otherwise uses exactly its tries. |
| `Ingest.Service.Ingest` | implementations/channels-go/internal/ingest/ingest.go:135-221 | Which error each rejection gives, that rejections leave everything as it was, and that every other call ends in one of the outcomes of its mode, in which a failure is answered only where a call failed, the new id was taken, or a text that parses could not be resolved. |
| `Ingest.Service.HandleRecall` | implementations/channels-go/internal/ingest/ingest.go:342-398 | The outcome of an OOPS: stored once, and, unless a call failed, the newest echo in its window marked and the recall confirmed if there is one, nothing recalled if there is none; each failing call leaves what it leaves. |
| `Ingest.Service.HandlePassthrough` | implementations/channels-go/internal/ingest/ingest.go:297-335 | The raw text is stored as routed, and forwarded when the channel has a consumer; without a failed call the answer is an error only if the new id was taken. |
| `Ingest.Service.HandleStructured` | implementations/channels-go/internal/ingest/ingest.go:165-220 | The decided message is stored with its verdict, and exactly the job its action calls for is started; without a failed call the answer is an error only if the new id was taken or the address book could not be listed. |
| `Ingest.RedeliveryChangesNothing` | implementations/channels-go/internal/ingest/ingest.go:197-206 | A message whose key is taken changes no row and starts no job; if answered, it is answered with the row that holds the key. |
| `Ingest.SecondDeliveryChangesNothing` | implementations/channels-go/internal/ingest/ingest.go:370-384 | Once a message has been answered, delivering it again changes nothing, whatever is read in between; an OOPS delivered twice recalls no more than once. |
| `Ingest.AnsweredMeansStored` | implementations/channels-go/internal/ingest/ingest.go:175-221 | A call that succeeds leaves a row under the message's key, and names it. |
| `Ingest.DoneUnlessFaulty` | implementations/channels-go/internal/ingest/ingest.go:135-221 | When no database call fails and the id is fresh, every message on an active account is answered: as a replay exactly when its key is taken, and otherwise stored under its key with its fresh id. |
| `Ingest.OthersChangeOnlyByRecall` | implementations/channels-go/internal/ingest/ingest.go:386-396 | However a message ends, at most its own row is added, and any other row changes only from echoed to recalled, by an OOPS of its account and sender. |
| `Ingest.RecallHitsTheNewestEcho` | implementations/channels-go/internal/ingest/ingest.go:342-396 | When no call fails, a new OOPS recalls exactly one row, the newest echo of its sender and account inside the window, confirms it, and leaves every other row as it was; if there is no such echo it is stored as to be clarified and nothing is recalled. |
| `Ingest.JobsOnlyForNewRows` | implementations/channels-go/internal/ingest/ingest.go:211-219 | A job starts only for a row just added: a forward only for an executed or routed message, an echo only for an echoed one, a confirmation only for one recalled. |
| `IngestEffects.NewMessageIsKept` | implementations/channels-go/internal/ingest/ingest.go:173-195 | Column by column, what the row of a newly answered message holds: an OOPS without channel, attachments and place; a conversational message with its text as payload; any other with the verdict on its text under the channel's commands and thresholds. |
| `IngestEffects.NewMessageStarts` | implementations/channels-go/internal/ingest/ingest.go:211-220 | Exactly what a new message starts: executed or routed, one delivery of its whole payload to the channel's URL if there is a consumer; echoed back, one confirmation to its sender, naming the target and the whole minutes of the window; recalled, the confirmation of the recall; otherwise nothing. |
| `IngestEffects.HeardExactlyWhen` | implementations/channels-go/internal/ingest/ingest.go:135-221 | From the text to the consumer, over all texts, address books and channel rows: a delivery starts, and an echo starts, exactly when. |
| `IngestEffects.OopsRecallsTheNewest` | implementations/channels-go/internal/ingest/ingest.go:342-398 | When no call fails, a new OOPS changes exactly the newest message echoed back to its sender on its account inside the channel's window, to recalled, and quotes its text to the sender; without one it is clarified and changes nothing. |
| `IngestEffects.RecallWordIsOops` | implementations/channels-go/internal/ingest/ingest.go:159-164 | A recall is exactly a text that is OOPS in any letter case with white space around it. |
| `IngestEffects.ChannelAsRead` | implementations/channels-go/internal/ingest/ingest.go:400-452 | What each channel setting is: the channel row's, where it has one, and the service's default elsewhere, setting by setting. |
| `IngestRefinement.HandledIsSteps` | implementations/channels-go/internal/ingest/ingest.go:135-398 | Every outcome the service can leave is reached by a sequence of steps of one call in the step system, with the same table, the very job started (kind, message and account), the same answer, and nothing else touched but the log of recalls. |
| `IngestRefinement.ServiceKeepsRunTheorems` | implementations/channels-go/internal/ingest/ingest.go:135-398 | Handling a message alone on the table that any run has come to leaves unique keys and sound links, no fired row that the run did not see acknowledged, and no recalled row among those whose forward the run attempted. |
| `Lifecycle.RunGoesOn` | implementations/channels-go/internal/ingest/ingest.go:135-398 | Steps that lead from the last state of a run make a longer run: what holds of every run holds after a service's call, too. |
| `ServiceRefinement.RunIsSteps` | implementations/channels-go/internal/replay/replay.go:140-199 | Whatever `Replay.Service.Run` promises of a run, failed marks included, is reached by its steps: begun, listed, each candidate attempted and marked in turn, ended; with the same table, the slot given back, exactly the reported rows attempted, and logged as acknowledged exactly the rows whose payloads the consumers acknowledged. |
| `ServiceRefinement.ReplyIsSteps` | implementations/channels-go/internal/outboundapi/outboundapi.go:83-220 | Every outcome of a reply, recorded or not, is reached by reading the conversation and then recording it or giving it up. |
| `ServiceRefinement.DispatchIsSteps` | implementations/channels-go/internal/ingest/ingest.go:498-553 | Every outcome of a background reply, recorded or not, is reached by dispatching its job and then recording it or giving it up. |
| `ServiceRefinement.StoppedErasureIsSteps` | implementations/channels-go/internal/retention/retention.go:165-244 | Wherever a failing erasure stops, the statements made until then lead there. |
| `ServiceRefinement.StoppedPurgeIsSteps` | implementations/channels-go/internal/retention/retention.go:122-155 | Wherever a failing purge stops, the statements made until then lead there. |
| `ServiceRefinement.ErasureIsSteps` | implementations/channels-go/internal/retention/retention.go:165-244 | Redacting each endpoint and then the contact's messages, and detaching them, one statement after the other, gives exactly the erased table. |
| `ServiceRefinement.PurgeIsSteps` | implementations/channels-go/internal/retention/retention.go:122-155 | Clearing the links and then deleting gives exactly the purged table. |
| `OutboundApi.Service.Send` | implementations/channels-go/internal/outboundapi/outboundapi.go:163-220 | Sent first and recorded afterwards: exactly when something is sent; that nothing is recorded without having been sent; and that what was sent is recorded, unless a call failed, exactly when the constraints admit it. |
| `OutboundApi.Service.ReplyToMessage` | implementations/channels-go/internal/outboundapi/outboundapi.go:83-106 | A reply goes to the stored sender, from the stored account, and that address is answered; it is recorded with that message's tenant, account and contact, a link to it and the text; exactly when it is not found, and sent, if no call fails; which errors leave everything as it was; reply links stay inside their tenant. |
| `OutboundApi.Service.DispatchReply` | implementations/channels-go/internal/ingest/ingest.go:512-553 | A background reply is sent exactly when its account can send, and, unless a call failed, recorded exactly when the constraints admit it, in its account's tenant with a link to the message it answers. |
| `Replay.Service.Acquire` | implementations/channels-go/internal/replay/replay.go:83-91 | The slot is given exactly when it was free, and is held afterwards. |
| `Replay.Service.Run` | implementations/channels-go/internal/replay/replay.go:140-185 | Each candidate, at most the limit, unfired, of the tenant and the filters, is attempted once, oldest first, its own payload to its own channel's URL, and what the consumers acknowledged are the payloads of the rows in `acks`; candidates = replayed + failed, with the failures exactly the rows not both acknowledged and marked; each acknowledged row that failed is one failed call, so without one the failures are exactly the unacknowledged rows and all others are fired; a held slot or a dry run sends and marks nothing; the slot is always given back. |
| `Replay.Service.AttemptOne` | implementations/channels-go/internal/replay/replay.go:189-199 | The answer returned is the consumer's own, a row is marked fired only if it was a yes, and an acknowledged row goes unmarked only because the marking call failed. |
| `Replay.SelectCounts` | implementations/channels-go/internal/replay/replay.go:165-183 | Each candidate counts as replayed or as failed, never as both. |
| `LifecycleSteps.StepKeepsInv` | implementations/channels-go/internal/ingest/ingest.go:135-553 | Every step of the whole system keeps the joint invariant of table, logs, queue, calls, jobs, outgoing messages and replay runs; forgets no inserted row; and changes stored rows only as statements may. |
| `LifecycleSteps.InvHolds` | implementations/channels-go/internal/ingest/ingest.go:135-553 | The joint invariant holds in every state of every run. |
| `LifecycleInvariants.InsertKeepsDb` | implementations/channels-go/internal/queries/goqueries/messages.sql.go:17-28 | An insert that respects the constraints keeps keys unique, links inside their tenant, and the log of inserted rows. |
| `LifecycleInvariants.DeleteKeepsDb` | implementations/channels-go/internal/queries/goqueries/retention.sql.go:181-183 | A permitted delete keeps keys unique and leaves no link dangling or crossing tenants. |
| `LifecycleSteps.RetentionKeepsInv` | implementations/channels-go/internal/queries/goqueries/retention.sql.go:16-236 | Clearing, purging, redacting and detaching, at any moment, keep every invariant of the lifecycle. |
| `LifecycleSafety.AcceptedIsKeptAndAckedIsStored` | implementations/webhook-go/internal/drain/drain.go:62-103 | Over every interleaving with lost replies, failed acks and redeliveries: an accepted message is queued, in flight, acknowledged or dead-lettered, and nothing else is; an acknowledged one was stored under its key, as an inbound row unless an outbound row took that key. |
| `LifecycleSafety.OneRowPerKey` | implementations/channels-go/internal/queries/goqueries/messages.sql.go:17-28 | At most one row has a given account and platform id in any state; of two rows ever inserted under one key, one has been purged. |
| `LifecycleSafety.OneJobPerMessage` | implementations/channels-go/internal/ingest/ingest.go:197-219 | No row ever has two jobs, and two jobs for the same key need a purge between them: redelivery starts no new job. |
| `LifecycleSafety.RowsOnlyEvolve` | implementations/channels-go/internal/queries/goqueries/messages.sql.go:352-363 | Between any two states of a run a stored row keeps its identity, its content is unchanged or redacted, its action changes only from echoed to recalled, links and contacts are only ever removed, and it is never un-fired. |
| `LifecycleSafety.ForwardedIsNeverRecalled` | implementations/channels-go/internal/ingest/ingest.go:342-398 | A message whose forward is attempted at any time of a run is recalled at no time of it, before or after. |
| `LifecycleSafety.RecalledByItsSender` | implementations/channels-go/internal/ingest/ingest.go:342-398 | A recalled echo was marked by a stored OOPS of the same account and sender, and that OOPS recalls nothing else, ever. |
| `LifecycleRecall.RecallWasLookedUp` | implementations/channels-go/internal/ingest/ingest.go:342-396 | Over all runs: every recall goes back to an earlier lookup for that very OOPS, in whose state the echo was in the window and the newest unrecalled one of the account and sender, whatever was stored, recalled or purged between the lookup and the marking. |
| `LifecycleSafety.AcksAreReal` | implementations/channels-go/internal/workflow/workflow.go:108-116 | Every logged acknowledgement stems from an earlier 2xx for that very message, from a live forward or a replay. |
| `LifecycleSafety.FiredMeansAcknowledged` | implementations/channels-go/internal/ingest/ingest.go:275-292 | `workflow_fired` is true only if some earlier delivery of that message, live or replayed, was answered 2xx. |
| `LifecycleSafety.UnfiredAreExactlyTheListed` | implementations/channels-go/internal/queries/goqueries/messages.sql.go:262-284 | For every listing, with any time and channel filters, that its limit does not cut off: it holds exactly the tenant's unfired routed or executed inbound rows that pass the filters and whose channel has a consumer; the joins lose none. |
| `LifecycleSafety.UnacknowledgedIsListed` | implementations/channels-go/internal/replay/replay.go:8-16 | A message decided for a consumer and never acknowledged is in every such listing until it is purged, whatever was lost, recalled, redacted or marked meanwhile. |
| `LifecycleSafety.ReplaysSendWhatWasStored` | implementations/channels-go/internal/replay/replay.go:238-272 | Over all runs: what a replay sends for a listed row is the payload of the row as it was inserted or, if the row had been redacted, that of its redaction, without text, sender, attachments and location. |
| `LifecycleSafety.ReplaysSendWhatWasForwarded` | implementations/channels-go/internal/replay/replay.go:221-272 | Over all runs: what a replay sends for a message is what its live forward sent, if its time was readable, its contact is not the all-zero id and it was not redacted before the listing. |
| `LifecycleSafety.OneActiveRunPerTenant` | implementations/channels-go/internal/replay/replay.go:83-97 | In every state at most one non-dry run of a tenant is active, and a slot is taken exactly while one is. |
| `LifecycleSafety.OverlappingRunsShareNothing` | implementations/channels-go/internal/replay/replay.go:128-149 | Two runs ever active together attempt no common message, then or later. |
| `LifecycleSafety.FiredIsNeverReplayed` | implementations/channels-go/internal/replay/replay.go:158-183 | A message marked fired before a run lists is never attempted by that run. |
| `LifecycleSafety.LiveMarkLasts` | implementations/channels-go/internal/ingest/ingest.go:285-290 | Once the mark of a live delivery has taken effect, reported or not, the message is fired for as long as it is there. |
| `LifecycleSafety.RunsAttemptInOrder` | implementations/channels-go/internal/replay/replay.go:119-127 | A run attempts its candidates in order of time and none twice; a run that is over has attempted all of them, a dry run none. |
| `LifecycleSafety.LinksAlwaysSound` | implementations/channels-go/internal/retention/retention.go:122-155 | In every state every reply link points to an existing row of the same tenant, so clearing and then purging is never refused and leaves exactly the purged table. |
| `LifecycleRetention.PurgeBlockedExactlyWhen` | implementations/channels-go/internal/retention/retention.go:122-155 | Over all runs, with anything between a purge's two statements: the delete is refused if and only if some row stored since the clearing, not itself old, replies to an old row. |
| `LifecycleRetention.ReplyBlocksPurge` | implementations/channels-go/internal/retention/retention.go:122-155 | Whenever the tenant has an old message that can be answered, an answer read and recorded after the clearing makes the delete fail. |
| `LifecycleRetention.APurgeIsBlocked` | implementations/channels-go/internal/retention/retention.go:122-155 | A concrete run of five steps in which that happens: one message stored, the links cleared, the message answered, the delete refused. |
| `LifecycleRetention.ErasedStaysErased` | implementations/channels-go/internal/retention/retention.go:157-244 | Over all runs: a redacted row stays redacted, and a row never comes to name a contact or to come from an endpoint that it did not before. |
| `LifecycleRetention.InterleavedErasure` | implementations/channels-go/internal/retention/retention.go:180-231 | Over all runs, with anything between the statements of an erasure: a row that afterwards comes from one of the endpoints, or names the contact, was stored after the statement meant to catch it, and whatever matched a statement stays redacted. |
| `Queue.Memory.Receive` | implementations/webhook-go/internal/queue/memory.go:30-39 | Receive hands out everything queued, in order, and empties the queue. |
| `Queue.Worker.Handle` | implementations/webhook-go/internal/drain/drain.go:86-103 | A delivery is offered to the publisher once: published and gone, or queued again, and that exactly when the publisher refused it. |
| `Queue.Worker.DrainOnce` | implementations/webhook-go/internal/drain/drain.go:62-83 | Whatever order the batch runs in, queued and published messages together are the same multiset before and after, and as many are queued again as were refused: nothing is lost or made up. |
| `Queue.HandleWebhook` | implementations/webhook-go/internal/listeners/registry.go:57-103 | Which status each case gives, and exactly which messages are queued: all of them in order on 200, the ones before the refused one on 500, none otherwise. |
| `Keyset.QueryPage` | implementations/channels-go/internal/queries/goqueries/export.sql.go:123-137 | The page holds the wanted rows above the cursor in key order up to the limit; one left out means that the page is full and the row lies beyond it. |
| `Keyset.PageCovers` | implementations/channels-go/internal/export/export.go:109-152 | After a page every row present throughout and up to the new cursor has come out; after a short page every row has. |
| `Keyset.FrozenIsSortedTable` | implementations/channels-go/internal/export/export.go:109-152 | Over a table that stands still the finished output is exactly its wanted rows in key order. |
| `Keyset.SortedTableIsUnique` | implementations/channels-go/internal/export/export.go:109-152 | There is only one such sequence, so the export is the sorted table. |
| `Keyset.OnePage` | implementations/channels-go/internal/export/export.go:113-151 | One page takes an export underway to a finished one when it is short and to one underway when it is full, keeping every mark, and to a partial one wherever the writing stops. |
| `Export.ExportSkipsALateRow` | implementations/channels-go/internal/export/export.go:105-152 | A concrete input on which a row that arrives during the export is missing from it: one row to a page, a second row received earlier than the first but stored after its page was read; the export ends well with the first row only. |
| `Export.ExportMessages` | implementations/channels-go/internal/export/export.go:109-152 | With arbitrary changes between pages and for any page size of at least one: rows of the tenant strictly increasing in (time received, id), none repeated, the raw payload told exactly when asked for, every row present throughout exactly once; of the rows absent from the first pages and there for the rest, exactly those above the cursor between (contrary to the comment at lines 107-108); it fails only when the writer takes no more or a query fails; over a table that stands still it ends with the sorted table and the right count. |
| `Export.ExportContacts` | implementations/channels-go/internal/export/export.go:156-211 | The same for contacts: the line at place i is a contact seen by the query of page i / page size, with exactly the endpoints that page's endpoint query saw it have. |
| `Export.PageEndpoints` | implementations/channels-go/internal/export/export.go:172-191 | Fetching a page's endpoints in one query and grouping them gives each contact of the page its endpoints, in order. |
| `Export.PageHasItsEndpoints` | implementations/channels-go/internal/queries/goqueries/export.sql.go:73-78 | Restricting the query to the contacts of the page loses none of their endpoints. |
| `Dsn.TakeApart` | implementations/channels-go/internal/db/dsn.go:81-133 | Cutting the text step by step gives the parts defined by the last `?`, the first `/` after the last `@`, the last `@`, the first `:` before it and the last `:` behind it. |
| `Dsn.QuoteKVValue` | implementations/channels-go/internal/db/dsn.go:166-182 | The quoting loop escapes every quote and backslash and nothing else. |
| `Dsn.UrlToKV` | implementations/channels-go/internal/db/dsn.go:81-160 | The appended fields are the non-empty parts in order followed by the decoded query parameters. |
| `Dsn.DecomposeAssembled` | implementations/channels-go/internal/db/dsn.go:81-133 | A URL assembled from its parts, with any password at all, is taken apart into them again. |
| `Dsn.FieldReadsBack` | implementations/channels-go/internal/db/dsn.go:166-182 | A written field is read by the grammar of PostgreSQL's section 34.1.1.1 as the same field if and only if its value has no white space that escapes quoting. |
| `Dsn.WrittenReadsBack` | implementations/channels-go/internal/db/dsn.go:135-182 | A written string is read as the fields it was written from if and only if every value is readable. |
| `Dsn.UrlReadsBack` | implementations/channels-go/internal/db/dsn.go:66-160 | End to end: an assembled URL, converted and then read, gives back its non-empty fields in order if and only if none of their values has unquotable white space. |
| `Dsn.QueryGives` | implementations/channels-go/internal/db/dsn.go:142-155 | A query string put together from parameters gives, in order, each one that has a value, under its key with its decoded value, unless that is empty. |
| `Dsn.ParametersReadBack` | implementations/channels-go/internal/db/dsn.go:66-160 | End to end, from parts and parameters: host, port, user, password and database name under those keywords, then the parameters, are read back if and only if no value has unquotable white space. |
| `Dsn.TabPasswordIsMisread` | implementations/channels-go/internal/db/dsn.go:162-182 | A concrete URL whose fields do not come back: a password that is a tab is written unquoted and read as white space. |
| `LookupCache.HTTPResolver.Resolve` | implementations/webhook-go/internal/accounts/http.go:60-102 | A fresh hit asks nobody; otherwise the answer decides, and only an account that was found is stored, for one TTL. |
| `LookupCache.AnswerMeans` | implementations/webhook-go/internal/accounts/http.go:82-101 | An account is found exactly on a 2xx that names one; it is not found on a 404 or a 2xx that names none; anything else may be tried again. |
| `LookupCache.KeysDoNotCollide` | implementations/webhook-go/internal/accounts/http.go:61 | Lookups of NUL-free platforms with equal cache keys are the same lookup. |
| `LookupCache.NulCollides` | implementations/webhook-go/internal/accounts/http.go:61 | With a NUL in the platform two different lookups can share a key. |
| `LookupCache.OnlyAccountsAreCached` | implementations/webhook-go/internal/accounts/http.go:77-99 | Misses and errors are never cached: an answer without an account leaves cache and history as they were, and only the storing of an account changes the cache. |
| `LookupCache.CacheServesTheAuthority` | implementations/webhook-go/internal/accounts/http.go:60-118 | Over any interleaving of lookups with a monotone clock and a changing authority, each account served from the cache is one the authority gave for that same platform and identifier, stored at most one TTL before. |
| `Retention.Purge` | implementations/channels-go/internal/retention/retention.go:122-155 | Run alone it reports as deleted exactly what it matched; stopped by a failing call it has done nothing, cleared the links, or finished; with no failed call it succeeds exactly when it is a dry run or the delete is possible after the clearing, which sound links make sure of. |
| `Retention.PurgeIsExact` | implementations/channels-go/internal/retention/retention.go:112-155 | A purge removes exactly the tenant's rows older than the cutoff; a survivor changes at most by losing a link whose target went. |
| `Retention.PurgePossibleExactlyWhen` | implementations/channels-go/internal/queries/goqueries/retention.sql.go:16-33 | After the clearing the delete is possible if and only if no other tenant's row links to a row that goes. |
| `Retention.Erase` | implementations/channels-go/internal/retention/retention.go:165-244 | On success exactly the tenant's messages that name the contact or come from one of its own endpoints are stripped of each personal column and flagged, nothing else of them or of any other changes, their number is reported, and the endpoints and the contact are removed; with no failed call it succeeds exactly when the contact is the tenant's and no message names it afterwards, and the contact is not found exactly when it is not the tenant's; on any failure some first endpoints are redacted, or all of them and the contact's messages, or the erasure of messages is complete. |
| `Retention.StoppedIsPartly` | implementations/channels-go/internal/retention/retention.go:165-244 | Wherever an erasure stops, each row is as it was, redacted, or fully erased, and rows it is not about are untouched. |
| `Retention.ErasureIsComplete` | implementations/channels-go/internal/retention/retention.go:157-164 | Afterwards no message of the tenant names the contact or comes from one of its endpoints; touched rows keep id, time, action and routing and none of the personal columns; others are unchanged. |
| `Retention.RedactedAtMostMatched` | implementations/channels-go/internal/retention/retention.go:180-217 | No more is redacted than was matched. |
| `Retention.RedactedIsMatchedExactlyWhen` | implementations/channels-go/internal/retention/retention.go:180-217 | The two counts agree if and only if no endpoint that has messages is listed twice. |
| `Retention.RedactedIsEveryMessage` | implementations/channels-go/internal/retention/retention.go:199-210 | What is redacted for a list of endpoints is the number of messages that come from one of them, each counted once however often its endpoint is listed. |
| `Retention.EraseEndpoint` | implementations/channels-go/internal/retention/retention.go:85-110 | A blank endpoint is refused; otherwise, unless a call fails, exactly that endpoint's messages are redacted and counted. |

## Left out

- HTTP handlers other than the webhook's, bearer auth, CRUD of tenants, channels, accounts and contacts, configuration, logging, metrics: one-branch plumbing.
- Platform adapters, webhook parsers, SQS, KMS, credential encryption and signature checks: foreign libraries; sending, publishing and forwarding are calls with arbitrary outcomes.
- Rounding of `float64`: confidences, thresholds and coordinates are reals, so the gate's bounds and the nine confidences are exact here and up to rounding in the program.
- Invalid UTF-8, and any fact about real Unicode beyond the hypotheses stated; lower-casing and upper-casing are rune by rune, as in Go.
- JSON, PostGIS and time formatting: stored values come back unchanged, a location as the pair of ordinates PostGIS keeps, and `Faithful` says what is needed of the printers.
- `SanitizeDSN` and its use of `net/url`, which accepts some passwords that contain a slash: claims are about the hand-written conversion.
- Query parameters of a URL whose keys are not plain keywords: `Dsn.UrlReadsBack` and `Dsn.ParametersReadBack` assume keywords, since the code writes any key as it stands.
- The stored action of a redelivered message: the code answers with a freshly computed one, and so does the model.
- `parsed` after redaction keeps its old fields next to the flag; deleting endpoints has no tenant filter; detaching clears both contact columns: modelled as they are.
- `Erase` and `Purge` are not transactions, and are proved for one caller with failing calls; interleaved with other work their statements are the separate retention steps of `Lifecycle`. A reply recorded between a purge's two statements makes the delete fail, which the clearing is meant to prevent (implementations/channels-go/internal/retention/retention.go:140-145): `LifecycleRetention.PurgeBlockedExactlyWhen` says exactly when, and `LifecycleRetention.APurgeIsBlocked` is a run in which it happens.
- A crash of the webhook process while it uses the in-memory queue, which loses what is queued: the step system keeps entries as the durable queue does.
- Restart of the channels process: the replay slots are per process, and one process is modelled.
- Liveness of replay and drain, which nothing in the code guarantees: the oldest rows of a replay may fail forever.
- Exactly-once delivery to consumers, which the code does not promise: a live forward and a replay may both deliver a message.
- `SendToContact` and `SendToEndpoint` as methods: they differ from a reply in how the target is found; the step system has them as `ApiSend`.
- The channel's own changes over time: each ingest call and each listing may see any channel rows.
- The drain worker and the webhook handler as sequences of the step system's queue steps: they are proved on their own queue, as multisets and prefixes of messages.
- Concurrency inside one lookup of the account cache: the two critical sections are the steps `Serve` and `StoreAnswer`.
