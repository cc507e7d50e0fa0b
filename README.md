# GLPI ticket transfer — a verified model

The program copies helpdesk tickets from one GLPI instance (the source) to
another (the destination) through GLPI's REST API. It opens a session on both
sides and reads the source tickets a page at a time. Each ticket that passes
the status filter gets its recipient and last updater remapped to destination
user ids through a list of `(email, users_id)` pairs. Its participants and
follow-ups are read and enriched. Then the ticket, its participants and its
follow-ups are written to the destination, in that order.

This project models the decision logic of `app.js` in Dafny:

- `Identity`: `getUserId`.
- `Links`: `href.replace(oldBase, newBase)` with JavaScript's string-pattern semantics.
- `Transform`: `transformToNewGLPIFormat`.
- `Enrich`: `fetchTicketDetails`.
- `Writer`: `addTicketToNewGLPI`.
- `Transfer`: `transferTickets`.
- `Decimal`: `Number.prototype.toString` for the ids the writer stringifies.
- `Glpi` and `Configuration`: the records and the configuration.

Both APIs are an immutable environment `Env`:

- A request whose key is missing from its map throws.
- `userEmails` gives each user's e-mail records. An empty list stands for a response whose `data[0]` is undefined.
- `failingWrites` is the set of destination writes that throw.
- Two flags say whether each session could be opened.

What the program does is a trace of `Event`s: source reads, destination writes, and the error-log entry for a failed ticket write. A run either completes, or is `Aborted` when an exception reaches the outermost handler of `transferTickets`.

Each loop of the source is a method with the source's loop shape, proved equal to a specification function:

- `AttachEmails` and `RemapFollowups` update an array in place.
- `PostTicketUsers` and `PostFollowups` stop at the first failing write.
- `MigrateTickets` is the ticket loop, with `continue`.
- `TransferTickets` is the page loop, with `break`.

The properties are lemmas about those functions.

These behaviours of `app.js` shape the model:

- Three failed requests are not caught before the handler at the end of `transferTickets` (app.js:311), so each of them ends the whole run (`Aborted`):
  - a failed page request (app.js:257);
  - a failed recipient or last-updater e-mail request (app.js:274, 293);
  - a failed participant-list request (app.js:52), which `fetchTicketDetails` does not catch.
- `href.replace` with a string pattern rewrites only the first occurrence of the old base URL. A second, non-overlapping occurrence is still there afterwards (`Links.LaterOccurrenceSurvives`).
- The new base URL is used as a JavaScript replacement string, so a `$` in it is not inserted literally. For example `$&` writes the old base URL back (`Links.DollarInReplacementIsExpanded`). The rerooting properties below hold when the new base URL contains no `$`.
- The status filter admits exactly the statuses `0..5`.

## Model

| member | source | states |
|---|---|---|
| `Identity.GetUserId` | app.js:28-34 | a result other than the default user id comes from an entry of the mapping whose e-mail is exactly the given, non-empty one |
| `Identity.FindFrom` | app.js:32 | the index found holds exactly the e-mail and no earlier entry does; none found means no entry from there on holds it |
| `Identity.BlankEmailGetsDefault` | app.js:29-31 | an absent or empty e-mail resolves to the default user id |
| `Identity.FirstMatchWins` | app.js:32-33 | a non-empty e-mail resolves to the `users_id` of the first entry whose e-mail is exactly equal |
| `Identity.UnmappedEmailGetsDefault` | app.js:33 | an e-mail no entry carries resolves to the default user id |
| `Links.IndexFrom` | app.js:139 | the first index at or after `from` where the pattern occurs, or none when it occurs nowhere there |
| `Links.RewriteLinks` | app.js:137-140 | the same number of links in the same order, each `rel` kept, each `href` the result of `replace` |
| `Links.Substitute` | app.js:139 | a replacement string without `$` is inserted literally (the same call is at app.js:118) |
| `Links.Replace` | app.js:139 | as at app.js:118 too, when the pattern occurs, the result starts with the text before its first occurrence and ends with the text after it |
| `Links.ReplaceAbsent` | app.js:139 | an href in which the old base URL does not occur is left unchanged |
| `Links.ReplaceFirstOccurrence` | app.js:139 | when the new base URL contains no `$`, only the first occurrence is replaced by it; the text before and after it is kept |
| `Links.ReplacePrefix` | app.js:139 | when the new base URL contains no `$`, an href starting with the old base URL becomes the new base URL plus the same suffix |
| `Links.LaterOccurrenceSurvives` | app.js:139 | when the new base URL contains no `$`, any occurrence that does not overlap the first one is still there after the replacement, shifted by the change in length |
| `Links.DollarInReplacementIsExpanded` | app.js:139 | a new base URL containing `$&` writes the old base URL back: `"old/x"` with `"old"` replaced by `"n$&"` gives `"nold/x"` |
| `Transform.TransformToNewFormat` | app.js:136-190 | every field sent is a listed field carrying the ticket's own value, and there are as many links as on the ticket |
| `Transform.TransformCopiesFields` | app.js:143-189 | id, status, recipient and last updater are copied; each listed field carries exactly the source value when present, and no other field is sent |
| `Transform.TransformRewritesLinks` | app.js:137-140 | the payload's links are the ticket's links with each href rewritten, in order |
| `Transform.TransformIgnoresRequester` | app.js:143-189 | the transient requester field never reaches the payload |
| `Transform.SourceRootedLinkIsRerooted` | app.js:137-140 | when the new base URL contains no `$`, a link rooted at the old base URL is rooted at the new one in the payload |
| `Transform.SingleLinkIsRerooted` | app.js:137-140 | when the new base URL contains no `$`, a ticket whose only link is rooted at the old base URL is sent with that one link rooted at the new base URL, `rel` kept |
| `Transform.ExampleLinkIsRerooted` | app.js:137-140 | `https://old.example/Ticket/10` becomes `https://new.example/Ticket/10` |
| `Decimal.IntToString` | app.js:209-212 | `toString` of an id (here and at app.js:229) is non-empty, starts with `-` exactly when the id is negative, and is digits after that |
| `Decimal.NatToStringDigits` | app.js:209-212 | `toString` of a natural is a non-empty digit string without a leading zero |
| `Decimal.ParseNat` | app.js:209-212 | reading succeeds exactly on non-empty digit strings |
| `Decimal.ParseInt` | app.js:209-212 | a result read back is negative exactly when the text starts with `-` |
| `Decimal.NatToStringRoundTrip` | app.js:209-212 | reading back the digits of a natural gives the natural |
| `Decimal.IntToStringRoundTrip` | app.js:209-212 | reading back `n.toString()` gives `n` |
| `Decimal.IntToStringInjective` | app.js:209-212 | distinct ids are stringified differently |
| `Enrich.EnrichTicketUser` | app.js:59-76 | the participant keeps its user id, role and notification flag, and one with a user id always ends with an e-mail |
| `Enrich.EnrichFollowup` | app.js:100-124 | only the author id and the links may change, the number of links is kept, and a follow-up without an author id is unchanged |
| `Enrich.UserEmailFetches` | app.js:58-67 | at most one request per participant, each for a non-zero user id |
| `Enrich.FollowupEmailFetches` | app.js:99-110 | at most one request per follow-up, each for a non-zero author id |
| `Enrich.AttachEmails` | app.js:58-78 | the participant loop issues one e-mail request per participant with an id, in order, and leaves each participant enriched by its own rule |
| `Enrich.RemapFollowups` | app.js:95-127 | the follow-up loop issues one e-mail request per follow-up with an author id, in order, and leaves each follow-up enriched by its own rule |
| `Enrich.FetchTicketDetails` | app.js:48-132 | participant list, then e-mails, then follow-up list, then author e-mails; a failed participant list propagates, and a failed follow-up list gives two empty lists |
| `Enrich.DetailsFetchOnlyReads` | app.js:48-132 | enrichment only reads participant lists, follow-up lists and e-mail records |
| `Enrich.ParticipantWithoutIdIsUntouched` | app.js:61-64 | a participant with no user id gets no e-mail |
| `Enrich.ParticipantGetsAnEmail` | app.js:65-76 | a participant with a user id gets its first e-mail record, or the default e-mail when the request fails or returns none; nothing else changes |
| `Enrich.UnresolvedAuthorKeepsSourceId` | app.js:101-124 | a follow-up with no author id, or whose author e-mail cannot be read, keeps its source author id and links |
| `Enrich.ResolvedAuthorIsRemapped` | app.js:108-119 | a resolved author becomes `getUserId` of its first e-mail, and the links are rewritten one for one; nothing else changes |
| `Enrich.TicketUsersFetchFailureAborts` | app.js:52-55 | a failed participant-list request yields no details |
| `Enrich.FollowupListFailureDiscards` | app.js:83-93 | a failed follow-up-list request yields two empty lists; the e-mail requests already made stay in the trace |
| `Enrich.DetailsEnrichEachItem` | app.js:58-130 | with both lists read, every participant and follow-up is enriched on its own, in order, and none is added or dropped |
| `Enrich.DetailsIgnoreWriteFailures` | app.js:48-132 | which destination writes fail makes no difference to enrichment |
| `Writer.TicketUserData` | app.js:206-214 | the participant envelope reads back as the ticket id, `getUserId` of the participant's e-mail, its role and its notification flag |
| `Writer.FollowupData` | app.js:225-234 | `tickets_id` reads back as the follow-up's own `items_id`; the request type is its own when non-zero, else 6, so never 0; date, author, privacy and content are copied |
| `Writer.RunWrites` | app.js:195-242 | at most one event more than the plan, and a non-empty plan's first write is always issued first |
| `Writer.AddTicket` | app.js:194-245 | at least the ticket's creation request is issued, first, and at most one event per planned write plus an error entry |
| `Writer.WritePlan` | app.js:197-239 | the writes are the ticket, then one per participant in order, then one per follow-up in order |
| `Writer.PostTicketUsers` | app.js:204-220 | the participant loop issues the planned writes in order up to and including the first failing one, which is followed by the error entry; it reports whether all succeeded |
| `Writer.PostFollowups` | app.js:223-239 | the same for the follow-up loop |
| `Writer.AddTicketToNewGLPI` | app.js:194-245 | the ticket, then the participants, then the follow-ups, with the first failure ending this ticket's writes |
| `Writer.AddTicketStages` | app.js:194-242 | the follow-up writes are reached only when the ticket write and every participant write succeed |
| `Writer.RunWritesAppend` | app.js:195-242 | issuing two lists of writes under one try/catch reaches the second only when the whole first succeeds |
| `Writer.RunWritesAllSucceed` | app.js:195-239 | when no write fails, every planned write is issued, in order, and nothing is logged |
| `Writer.RunWritesStopsAtFirstFailure` | app.js:240-242 | the first failing write is the last one issued, followed by one error entry for the ticket |
| `Writer.RunWritesIsPlanPrefix` | app.js:195-242 | what is issued is the whole plan with no failure, or a prefix of it ending in the failing write plus the error entry |
| `Writer.RunWritesFromPlan` | app.js:195-242 | every issued event is a planned write or the ticket's error entry |
| `Writer.AddTicketOnlyWrites` | app.js:194-245 | the writer only writes to the destination and logs |
| `Writer.ParticipantWithoutEmailGetsDefault` | app.js:206-210 | a participant without an e-mail is written with the default user id |
| `Transfer.PageRange` | app.js:257 | page `i` spans `batchSize` ids, and starts at a non-negative id for a non-negative page with a positive size |
| `Transfer.ProcessTicket` | app.js:265-302 | a pass makes no request exactly when the ticket is filtered out or has no recipient id, and only a ticket that passes both can abort the run |
| `Transfer.ProcessTickets` | app.js:263-305 | the ticket loop completes exactly when every ticket's pass completes |
| `Transfer.Pages` | app.js:256-308 | from a page below `batchSize`, the first event is that page's range request |
| `Transfer.TransferRun` | app.js:248-317 | the run completes or makes any request only when both sessions open, and when it makes one, the first is page `0 .. batchSize-1` |
| `Transfer.MigrateTicket` | app.js:265-302 | one pass of the ticket loop body: filter, recipient and updater checks and remapping, enrichment, writes |
| `Transfer.MigrateTickets` | app.js:263-305 | the ticket loop processes tickets in order and stops at the first that aborts the run |
| `Transfer.TransferTickets` | app.js:248-317 | both sessions, then the page loop |
| `Transfer.SkippedTicketCausesNothing` | app.js:265-271 | a ticket outside the status filter or without a recipient id causes no request and no write |
| `Transfer.MissingUpdaterWritesNothing` | app.js:285-291 | a ticket without a last-updater id only causes its recipient's e-mail request |
| `Transfer.TicketEvents` | app.js:265-302 | a ticket's pass only reads e-mails and sub-collections, writes, and logs |
| `Transfer.WritesOnlyForAdmittedTickets` | app.js:265-302 | a ticket that is not admitted writes nothing, and neither does a pass that aborts the run |
| `Transfer.AdmittedTicketIsWritten` | app.js:274-302 | an admitted ticket completes; its creation request is the first write, right after the two e-mail requests and the enrichment's requests, with the recipient's resolved id as recipient and the updater's as last updater; the ticket handed to the writer has the recipient's resolved id as requester |
| `Transfer.TicketLoopRequestsNoPage` | app.js:263-305 | the ticket loop never requests a page |
| `Transfer.PagesRequestRangesInOrder` | app.js:256-307 | the `k`-th page requested from page `i` on is page `i + k`, and at most `batchSize - i` pages are requested |
| `Transfer.ShortPageEndsPaging` | app.js:307 | a page shorter than `batchSize` is the last one requested |
| `Transfer.FewerThanBatchTicketsFetchOnePage` | app.js:256-307 | fewer than `batchSize` tickets means exactly one page, `0 .. batchSize-1`, is requested |
| `Transfer.AuthFailureWritesNothing` | app.js:250-253 | a failed session ends the run before any request or write |
| `Transfer.TicketOutcomeIgnoresWriteFailures` | app.js:302 | whether a ticket's pass aborts does not depend on which writes fail |
| `Transfer.TicketLoopOutcomeIgnoresWriteFailures` | app.js:263-305 | the same for the ticket loop |
| `Transfer.PagesOutcomeIgnoresWriteFailures` | app.js:256-308 | the same for the page loop |
| `Transfer.WriteFailureStaysWithTicket` | app.js:240-242 | a failed write never decides whether the run aborts |
| `Transfer.ExampleTicketIsRemapped` | app.js:274-302 | ticket 10, whose recipient and updater both read `a@x.com`, which is mapped to 42, is written with 42 in both fields |
| `Transfer.ExampleFailedParticipantUsesDefault` | app.js:65-76 | participant 7, whose e-mail request fails, carries the default e-mail and is written with the id that address resolves to |
| `Transfer.ExampleFollowupFailureWritesBareTicket` | app.js:83-93 | when the follow-up list fails, the admitted ticket is still written, with no participant and no follow-up |

## Left out

- `dbToJson.js` is not part of this model: it dumps one database query to a file.
- `logError` and the console: warnings, info lines and console errors are not events. Only the error entry for a failed ticket write is. The entries for a failed participant or follow-up e-mail request are not modelled. Neither is the text of any message.
- `getSessionToken`: each session is one flag in `Env`. The tokens, headers, URL formatting and the axios transport are not modelled.
- Configuration loading (`dotenv`, `parseInt` of the batch size) and the `users.json` load: the configuration and the mapping are given values.
- `async`/`await`: every request is awaited in turn, so the model is sequential.
- Missing ids are the id 0, since the source treats missing, `null` and 0 alike (`!id || id === 0`). The value of an absent `requesttypes_id` is 0 too (`|| 6`).
- JSON values are not typed beyond `Null`, `Bool`, integer `Num` and `Str`. A source field absent from a ticket is absent from the payload. The model does not cover values the source would send that are not of these kinds.
- `Decimal.IntToStringRoundTrip`: ids are unbounded integers. Exponent notation, which `toString` uses for numbers of 10^21 and above, is not modelled.
- `Links.Substitute`: the `$n` and `$<name>` forms of a replacement string are copied literally. Only the `$$`, `$&`, `` $` `` and `$'` forms are modelled, since the pattern is a plain string and has no capture groups.
- Link lists are assumed present on tickets and follow-ups. A missing `links` would make `.map` throw, and that path is not modelled.
- An e-mail record is the string itself, so a record without an `email` field (where `data[0].email` is `undefined`) is not modelled.
- Write failures are deterministic: a given write either always fails or never does.
- The objects the source updates in place (each ticket, `ticketUsers[i]`, `ticketFollowups[i]`) are values that the methods rebuild. The lists updated in place are arrays in `AttachEmails` and `RemapFollowups`. No object is shared, so there is no aliasing to model.
