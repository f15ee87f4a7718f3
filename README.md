# Support-ticket bot: conversation and ticket service in Dafny

A Telegram bot walks a user through filing a support ticket. `/newticket`
opens a draft. The user then sends a merchant name, a description, and any
number of photos or videos. Finally "done" dispatches the ticket to a
configured destination chat. This project models the two files that hold
that logic:

- **`bot.js`** (module `Conversation`, properties in `ConversationProperties`).
  - The store: a map from user id to the record `{state, ticketData, lastUpdated}`.
  - The shallow-merge update that stamps `lastUpdated`.
  - The sweep that drops records idle for more than 30 minutes.
  - The handlers for `/newticket`, `/cancel`, photo and video messages, and plain messages.
- **`ticketService.js`** (module `TicketService`).
  - Validation of a finished draft.
  - `escapeHtml`.
  - The ticket message template.
  - `createTicket`, which sends the ticket text and then each attachment.

`JsString` models the JavaScript string primitives the code relies on:
- `trim`;
- `length`, which counts UTF-16 code units;
- `startsWith`;
- the ASCII part of `toLowerCase`.

`Wrappers` holds the `Option` type, which stands for a field that may be
`undefined`.

**How the two files are modelled**

- **Handlers as turn functions.** Each handler is a function from the old
  map to a `Turn`: the new map, the replies sent to the user (by kind), and
  the sends made to the destination chat.
- **`Conversation.Bot` carries out the turns step by step.** It holds the map
  as a field, as the source holds its global `Map`. Each of its methods is
  proved to produce exactly the turn its function describes.
- **The sweep is a loop.** `Conversation.Bot.CleanupExpiredStates` visits the
  records one at a time and deletes the idle ones.
- **The dispatch is a method.** `TicketService.CreateTicket` sends one item
  at a time; its attachment loop is the method
  `TicketService.SendAttachments`. An oracle `fails` says which send attempts the transport
  rejects. The method is proved equal to the function
  `TicketService.CreateTicketSpec`, and the properties of the dispatch are
  proved about that function.
- **Inputs.** The clock, whether the transport delivers a reply, the
  dispatch time stamp and the send failures all come in through `Env`.

**Three behaviours of the code that are easy to miss, which the model keeps:**

- **A failed warning aborts the dispatch.** A failed attachment is followed
  by a warning message. That warning is sent inside the per-item `catch`
  (ticketService.js:36-41), so if it fails too, the error reaches the outer
  `catch` and `createTicket` throws. So a dispatch is created only when no
  failed attachment's warning fails as well (`TicketService.CreateTicketOutcome`).
  It is not enough for the ticket text to be delivered.
- **An undelivered reply ends the conversation.** In the message handler,
  a reply the transport rejects is not best-effort. It lands in the
  handler's `catch`, which sends the error notice and deletes the record
  (bot.js:261-265, `Conversation.Proceed`).
- **A failed reply to `/newticket` or to a photo or video leaves the record
  in place.** Those handlers' `catch` blocks only send the error notice
  (bot.js:110-113, 185-188).

**Logging.** Two log calls name identifiers that are never defined: the
sweep's `lconsole.log` (bot.js:25) and the dispatch's `logger.error`
(ticketService.js:37, 48). As written, each throws a ReferenceError. Both
are recorded under Findings, each with a member that models the code as
written. Everywhere else, and in particular in `Conversation`'s turns and in
`Conversation.Bot`, the model uses the evidently intended code, where every
log call is a no-op:
- the sweep deletes every idle record (`Conversation.Sweep`);
- the dispatch recovers from a failed attachment by sending a warning
  (`TicketService.CreateTicketSpec`).
"## Left out" lists what this changes for the user.

## Model

| member | source | states |
|---|---|---|
| JsString.TrimStart | ticketService.js:4 | the start of `trim`: a suffix of the input, preceded only by whitespace, not starting with whitespace |
| JsString.TrimEnd | ticketService.js:4 | the end of `trim`: a prefix of the input, followed only by whitespace, not ending with whitespace |
| JsString.Utf16Length | ticketService.js:4 | JavaScript's `length` lies between the number of characters and twice that number |
| JsString.TrimShape | ticketService.js:4 | `trim` never lengthens the text; what is left starts and ends with a non-whitespace character, and it is empty exactly when the text is all whitespace |
| JsString.TrimIgnoresPadding | ticketService.js:4-8 | whitespace added around a text never changes its trim |
| JsString.TrimKeepsCore | ticketService.js:4-8 | a text that neither starts nor ends with whitespace is its own trim |
| JsString.Utf16LengthInBmp | ticketService.js:4-8 | inside the Basic Multilingual Plane, `length` is the number of characters |
| TicketService.ValidateTicketData | ticketService.js:1-13 | the merchant error exactly when the merchant name is missing or shorter than 2 after trimming; the description error exactly when the merchant name passes and the description is missing or shorter than 10; no error exactly when both pass |
| TicketService.ValidationIgnoresPadding | ticketService.js:4-10 | whitespace around either field never changes the verdict |
| TicketService.ValidationBoundaries | ticketService.js:4-12 | the limits are inclusive and measured after trimming: 2 and 10 characters pass, 1 fails on the merchant name, and 2 with 9 fails on the description |
| TicketService.EscapeHtml | ticketService.js:61-68 | the output is at least as long as the input and holds no raw `<`, `>`, `"` or `'` |
| TicketService.EscapeHtmlAppend | ticketService.js:61-68 | escaping works character by character: it distributes over concatenation |
| TicketService.EscapeHtmlKeepsPlainText | ticketService.js:61-68 | text without any of the five special characters comes out unchanged |
| TicketService.EscapedAmpersandsStartEntities | ticketService.js:61-68 | every `&` in the output begins one of `&amp; &lt; &gt; &quot; &#039;` |
| TicketService.UnescapeEscapeHtml | ticketService.js:61-68 | decoding the five entities gives back the original text, so nothing is lost and nothing is escaped twice |
| TicketService.EscapeHtmlIsReplaceChain | ticketService.js:61-68 | the five global replacements, applied `&` first as the source does, equal the character-by-character escape on every input |
| TicketService.FormatTicketMessageFrame | ticketService.js:53-59 | the ticket message starts with the fixed header and ends with the creation time |
| TicketService.ParseFormatTicketMessage | ticketService.js:53-59 | the merchant name, the reporter, the description and the time are read back exactly from the ticket message, in that order, so no user text can forge the template's markup |
| TicketService.CreateTicket | ticketService.js:15-51 | sends the ticket text, then each attachment in draft order with a warning after each failed one, and returns the sends and the outcome that `CreateTicketSpec` prescribes |
| TicketService.SendAttachments | ticketService.js:24-44 | sends each photo or video in draft order, a warning after each failed send, and stops when that warning fails; the sends and the stop are those `AttachmentSends` prescribes |
| TicketService.AbortIsFinal | ticketService.js:36-49 | once a warning's send fails, no later attachment is sent |
| TicketService.AttachmentSendsFacts | ticketService.js:24-44 | the attachment loop aborts exactly when some failed attachment's warning fails too; otherwise its photo and video sends are the planned ones, in order, with one warning per failed attachment |
| TicketService.AttachmentSendsAborts | ticketService.js:36-44 | the attachment loop stops early exactly when some photo or video fails to send and its warning fails too |
| TicketService.AttachmentSendsCounts | ticketService.js:24-41 | until the loop stops early, its photo and video sends are the planned ones, in order, and it holds one warning per failed send |
| TicketService.AttachmentSendsRecovered | ticketService.js:24-44 | until a warning fails, the loop's log is each attachment's contribution in draft order: its send, then a warning if that send failed, and nothing for an attachment of another kind |
| TicketService.RecoveredSendsWarnings | ticketService.js:36-41 | in that log, every warning comes right after the failed send of a photo or video, and names that attachment's kind and the reporter's @username |
| TicketService.TicketTextFirst | ticketService.js:18-21 | the first send is the formatted ticket text; with a missing field, `escapeHtml` throws and nothing is sent |
| TicketService.TicketTextFailureStopsDispatch | ticketService.js:21-49 | a failed ticket text ends the dispatch: no attachment is sent and `createTicket` throws |
| TicketService.NoMediaSendsOneMessage | ticketService.js:21-46 | with no attachments, a dispatch whose text is delivered is that one message and succeeds |
| TicketService.CreateTicketOutcome | ticketService.js:15-51 | a dispatch succeeds exactly when the fields are present, the text is delivered and no warning fails; when it succeeds, the text is followed by each attachment's send in draft order, each failed one followed at once by its warning naming its kind and the reporter |
| TicketService.FailedAttachmentAbortsAsWritten | ticketService.js:36-48 | one photo whose send fails: as written the dispatch fails with no warning, while the intended recovery sends the warning and creates the ticket |
| ConversationProperties.MergeFields | bot.js:33-38 | a field the update names wins; any other is kept from the stored record, or stays absent when there is none; `lastUpdated` is always `now` |
| ConversationProperties.UsernameOrDefaultKeeps | bot.js:217 | a missing or empty username becomes "No username"; any other username is kept; the result is never empty |
| ConversationProperties.IsDoneSpelling | bot.js:239 | a text counts as "done" exactly when it has four characters spelling d, o, n, e, each in lower or upper case |
| ConversationProperties.NewMediaItemKinds | bot.js:166-167 | a photo becomes its last (largest) size and a video its file, each under its own kind, which the dispatch always sends; only a photo without sizes, where the read throws, yields nothing |
| Conversation.Bot.constructor | bot.js:18 | the store starts empty |
| Conversation.Bot.UpdateUserState | bot.js:32-40 | the user's record becomes the shallow merge of the old record (or `{}`) and the update, stamped `now`; no other record changes |
| Conversation.Bot.CleanupExpiredStates | bot.js:20-28 | after visiting every record, the store is the old one less the records idle for more than 30 minutes |
| Conversation.Bot.OnNewTicket | bot.js:95-114 | the new store and replies are those of `NewTicketTurn` |
| Conversation.Bot.OnCancel | bot.js:116-138 | the new store and replies are those of `CancelTurn` |
| Conversation.Bot.OnMedia | bot.js:144-189 | the new store and replies are those of `MediaTurn` |
| Conversation.Bot.OnMerchant | bot.js:203-213 | the new store and replies are those of `MerchantTurn` |
| Conversation.Bot.OnDescription | bot.js:215-236 | the new store and replies are those of `DescriptionTurn` |
| Conversation.Bot.OnMediaText | bot.js:238-259 | the new store, replies and dispatch sends are those of `MediaTextTurn` |
| Conversation.Bot.OnMessage | bot.js:192-266 | the new store, replies and dispatch sends are those of `MessageTurn` |
| Conversation.Bot.Handle | bot.js:140-142 | each event goes to its handler, and the result is that of `HandleEvent` |
| ConversationProperties.MergeWholeRecord | bot.js:32-38 | a whole record passed as the update replaces the stored one, except that the time stamp is the merge's own |
| ConversationProperties.MergeRefreshesTimestamp | bot.js:32-38 | an update that names no field only refreshes `lastUpdated`, even when the update carries its own time stamp |
| ConversationProperties.MergeFromNothing | bot.js:33-38 | without a stored record, the fields the update does not name stay absent |
| ConversationProperties.SweepKeepsRecent | bot.js:20-24 | a sweep keeps exactly the records with `now - lastUpdated <= 30 min`, and leaves them unchanged |
| ConversationProperties.SweepLater | bot.js:20-28 | a later sweep subsumes an earlier one, so sweeping twice at the same time changes nothing |
| ConversationProperties.SweepAsWrittenOutcome | bot.js:22-26 | as written, a sweep throws exactly when it reaches an idle record, and has then deleted that one record only; with no idle record it changes nothing |
| ConversationProperties.SweepAsWrittenStopsEarly | bot.js:22-26 | with two idle records, the sweep as written deletes one and throws, while the intended sweep deletes both |
| ConversationProperties.NewTicketStartsOver | bot.js:97-108 | `/newticket` leaves the user's record at AWAITING_MERCHANT with an empty draft, whatever was there before; the error notice follows exactly when the reply is not delivered |
| ConversationProperties.CancelEndsConversation | bot.js:120-133 | `/cancel` leaves no record, and replies "cancelled" exactly when there was a record and "nothing to cancel" exactly when there was none |
| ConversationProperties.MediaOnlyWhileAwaitingMedia | bot.js:147-188 | with no record, or a record in another phase, the store is unchanged and the matching rejection is sent; a store change happens only for a record awaiting media, with the "attached" reply |
| ConversationProperties.MediaAppended | bot.js:165-174 | the attachment is appended after the earlier ones, taking a photo's last (largest) size; the phase stays and the record is stamped `now` |
| ConversationProperties.IgnoredMessages | bot.js:196-202 | text starting with `/`, a user without a record, or a record without a phase: no change and no reply |
| ConversationProperties.MerchantStoredAsSent | bot.js:203-211 | the text is stored unvalidated as the merchant name (even when absent), and the record advances to AWAITING_DESCRIPTION |
| ConversationProperties.DescriptionValidated | bot.js:215-234 | the description and the username (or "No username") are stored; the record survives exactly when validation passes and the reply is delivered; a failed rule deletes it and replies with that rule's error |
| ConversationProperties.ShortMerchantAbandoned | bot.js:215-223 | a merchant name that fails its rule ends the conversation at the description step, whatever the description |
| ConversationProperties.DoneIsNoCommand | bot.js:239 | a text that counts as "done" never starts with `/` |
| ConversationProperties.DoneSpellings | bot.js:239 | "done", "DONE" and "Done" submit; " done", "done." and "" do not |
| ConversationProperties.DoneSubmitsDraft | bot.js:238-264 | "done" dispatches the draft and deletes the record, whether or not the ticket was created; the success reply is sent exactly when the dispatch succeeded |
| ConversationProperties.OtherTextReprompts | bot.js:250-258 | any other text while awaiting media repeats the prompt and leaves the record unchanged, time stamp included |
| ConversationProperties.MessageFailureEndsConversation | bot.js:201-265 | an undelivered reply, or any error notice, means the record is gone; a record that survives got exactly one prompt |
| ConversationProperties.OtherUsersUntouched | bot.js:95-266 | no event adds, removes or changes another user's record |
| ConversationProperties.MediaTurnKeepsWellFormed | bot.js:144-189 | a photo or video keeps every record well formed |
| ConversationProperties.MerchantTurnKeepsWellFormed | bot.js:203-213 | the merchant step keeps every record well formed |
| ConversationProperties.DescriptionTurnKeepsWellFormed | bot.js:215-236 | the description step keeps every record well formed; a record awaiting media always holds a draft that passes validation |
| ConversationProperties.MessageTurnKeepsWellFormed | bot.js:192-266 | the message handler keeps every record well formed |
| ConversationProperties.HandleEventKeepsWellFormed | bot.js:95-266 | every event keeps every record well formed |
| ConversationProperties.SweepKeepsWellFormed | bot.js:20-28 | a sweep keeps every record well formed |
| ConversationProperties.RunKeepsWellFormed | bot.js:18-266 | from the empty store, any run of events and sweeps keeps every record well formed: it has a phase and a draft, holds only photos and videos, and passes validation once it awaits media |
| ConversationProperties.PlannedSendsOfKnownKinds | ticketService.js:25-35 | for photos and videos, there is one send per attachment, in order, of the attachment's own kind and file id |
| ConversationProperties.NoFailuresSendsPlanned | ticketService.js:24-44 | when no attachment send fails, the loop sends exactly the planned sends and does not abort |
| ConversationProperties.SubmittedTicketIsComplete | bot.js:238-248 | in a well-formed store, "done" always sends the ticket text with the draft's fields first; when no send fails, the ticket is created and every attachment follows in the order sent |
| ConversationProperties.CoreLongEnough | ticketService.js:4-8 | text without surrounding whitespace, inside the Basic Multilingual Plane, passes a length rule exactly when it has enough characters |
| ConversationProperties.HappyPath | bot.js:95-266 | `/newticket`, a merchant name, a description, one photo and "Done" give the five expected prompts; the destination receives the ticket text and then the photo's largest size; the record is gone |
| ConversationProperties.ShortMerchantRejectedLate | bot.js:203-265 | a one-character merchant name is accepted when sent, and rejected only after the description, with the merchant rule's error and the draft dropped |
| ConversationProperties.IdleConversationExpires | bot.js:20-28 | a record idle for more than 30 minutes is swept away, and the user's next message is ignored: the only replies are the `/newticket` prompt and, if that prompt was not delivered, the error notice |

## Left out

- **Not modelled:**
  - the Telegram transport and its construction and polling (bot.js:1-16);
  - the `polling_error` handler;
  - the webhook server in `index.js`;
  - `ticketStates.js`. That file is not part of this model; its three phases are taken to be three distinct values.
- **`/start` and `/help`** (bot.js:56-93): they only send fixed text and touch no record.
- **`sendErrorMessage`** (bot.js:43-53) is represented by the `ErrorNotice` reply. Its own failure is swallowed by the source, so it changes nothing.
- **Reply wording**: replies are modelled by kind, not by their emoji text. The text of the validation messages and of the attachment caption and warning is kept.
- **Chat ids**: replies go to the user's chat, and every dispatch send goes to the one configured destination. So chat ids are left out.
- **Command dispatch**: the `onText` patterns match anywhere in a message, and `onlyFirstMatch` is set. Commands are modelled as distinct events, and a plain message is one that the message handler receives. A text such as "hi /cancel", which reaches both a command handler and the message handler, is not modelled.
- **Concurrency**: the handlers are asynchronous, and the sweep runs from `setInterval` every five minutes (bot.js:30). Each event and each sweep is modelled as one atomic step, so interleavings of two handlers for the same user are not modelled.
- **Clock values**: `Date.now()` and `new Date().toISOString()` are parameters (`Env.now`, `Env.createdAt`).
- **Logging**: `console` calls are not modelled. The two calls that throw are modelled only in `Conversation.SweepAsWritten` and `TicketService.CreateTicketAsWritten`.
- Conversation.MediaTextTurn: "done" uses the evidently intended dispatch. Take a photo whose send fails while its warning is delivered. The model sends the text, the photo and the warning, and replies with the success message. As written, `logger.error` throws (ticketService.js:37), `createTicket` rejects, and the user gets the error notice (see Findings).
- Conversation.Bot.CleanupExpiredStates: uses the evidently intended sweep, which deletes every idle record. As written, the first deletion throws a ReferenceError (bot.js:25). Nothing catches it in the `setInterval` callback (bot.js:30) and there is no handler for uncaught exceptions, so the Node process exits and every record is lost. The process exit is not part of this model.
- Conversation.MediaTurn: the replies "no active ticket" and "media not expected" (bot.js:150, 158) are sent outside the handler's `try`. If the transport rejects them, the rejection is unhandled: no error notice follows and the store is unchanged, which is what the model does. What the runtime then does with the unhandled rejection is not part of this model.
- **Map iteration order**: `Conversation.Bot.CleanupExpiredStates` visits the records in an arbitrary order. The result of the intended sweep does not depend on the order.
- **Aliasing**: the handlers change the stored record object in place before merging it back (bot.js:169, bot.js:204-205, bot.js:216-218). The model builds the changed record as a value and stores it. Every path that changes a record in place then either merges it back or deletes the record, so the difference cannot be seen from one event to the next.
- **`toLowerCase`**: `JsString.LowerAscii` lower-cases ASCII letters only. No character outside ASCII lower-cases to `d`, `o`, `n` or `e`, so the "done" test (`Conversation.IsDone`) still agrees with the source on every text.

## Findings

| source | as written | input that shows it | evidently intended | confidence | as-written member | corrected member |
|---|---|---|---|---|---|---|
| bot.js:25 | after deleting an idle record, the sweep logs through `lconsole`, an identifier that is never defined, so it throws a ReferenceError and the sweep stops | a single record idle for more than 30 minutes when the sweep runs: it is deleted, then the ReferenceError escapes the `setInterval` callback (bot.js:30) uncaught, the Node process exits and every other record is lost | every idle record is deleted in one sweep and the bot keeps running | not executed | Conversation.SweepAsWritten, ConversationProperties.SweepAsWrittenOutcome, ConversationProperties.SweepAsWrittenStopsEarly | Conversation.Bot.CleanupExpiredStates, ConversationProperties.SweepKeepsRecent |
| ticketService.js:37 | the per-item `catch` first calls `logger.error`, which is never defined or imported, so a failed attachment throws before its warning is sent; the outer `catch` (ticketService.js:48) throws the same way, so `createTicket` rejects | a draft with one photo whose send fails, while the ticket text and the warning would be delivered | the warning is sent, the loop goes on, and the ticket is created | not executed | TicketService.CreateTicketAsWritten, TicketService.FailedAttachmentAbortsAsWritten | TicketService.CreateTicket, TicketService.CreateTicketOutcome |
