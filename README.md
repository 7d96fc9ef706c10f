# Whaticket backend core in Dafny

This project models three parts of the whaticket-community backend, a help desk that
serves WhatsApp conversations as tickets:

- **The message listener** (`wbotMessageListener.ts`). For every message a session
  creates, it runs these steps in order:
  - it drops invalid events;
  - it drops the system's own replies, which start with U+200E LEFT-TO-RIGHT MARK, and skips farewell echoes;
  - it runs the agent commands `/activar-ritual` and `/info`;
  - it stores the message (media or text) and updates the ticket's last message;
  - it routes a queue-less ticket through the queue menu;
  - it lets the automatic responder answer, with hand-over to an agent;
  - it turns shared contact cards into contacts.

  It also applies delivery acknowledgements to stored messages.
- **The session manager** (`StartWhatsAppSession.ts`). It holds the process-wide list of live
  WhatsApp clients, at most one per account. The `qr`, `auth_failure`, `ready` and
  `disconnected` events rewrite the account record and the list. `getWbot` and
  `removeWbot` look clients up and remove them.
- **The HTTP application's two fixed decisions** (`app.ts`):
  - the catch-all route tells API paths (404 JSON) from single-page-app paths (`index.html`);
  - the final error handler maps an `AppError` to its own status and anything else to 500.

Modules:

- `Strings` gives the JavaScript string operations the code relies on: `split` on one character, `join`, `startsWith`, `replace(/\D/g, "")`, ASCII `toLowerCase`, and decimal rendering and parsing.
- `Records` holds the database rows as values.
- `MessageFormat` holds the listener's pure builders and its loops:
  - `makeRandomId`;
  - the `forEach` that numbers the queue menu;
  - the nested contact-card scan.
- `MessageListener` holds the `Backend` class: the ticket table, the message store, the first-stored order of message ids, one effect log and the debounced menu sends. The ticket table is always the replay of the effect log (`Backend.Consistent`). The listener's helper functions become methods of their own. Two functions are split into one method per block:
  - `handleMessage` becomes `HandleMessage`, `Screen`, `HandleTicketMessage`, `AgentCommand`, `StoreAndFollowUp`, `StoreMessage`, `FollowUps`, `Route`, `Respond` and `CardContacts`;
  - `handleGeminiAutoResponse` becomes `AutoRespond`, `GuardedConverse`, `Converse`, `Escalate` and `Reply`.

  Beside the class, functions on values (`Storing`, `AfterStoring`, `AfterRouting`, `AfterResponder`, `FollowUpsOf`) say what each block leaves in the store, the log and the pending menus. The methods are proved against them through `Backend.View`.
- `Sessions` holds the registry class and the lifecycle handlers.
- `App` holds the catch-all and the error handler.

What the WhatsApp client, the template engine (`formatBody`), the clock, `Math.random`, the responder and the environment return is passed in as a parameter.

## Model

| member | source | states |
|---|---|---|
| App.CatchAll | backend/src/app.ts:53-73 | 404 with `Not found` exactly when the path starts with one of the eleven API prefixes; `index.html` otherwise |
| App.ListedPrefixes | backend/src/app.ts:56-66 | the eleven chained `startsWith` tests hold exactly when the path starts with an entry of the prefix list |
| App.ApiPathExtends | backend/src/app.ts:56-66 | classification is by raw prefix: any extension of an API path is an API path |
| App.RawPrefixExamples | backend/src/app.ts:56-72 | `/publicity` and `/users2` get the 404; `/` and `/dashboard` get `index.html` |
| App.OnlyApiInitials | backend/src/app.ts:56-72 | a path whose second character starts no prefix is served `index.html` |
| App.ErrorReply | backend/src/app.ts:39-47 | an `AppError` keeps its status and message; any other error is a 500 `Internal server error` |
| App.InternalErrorsAreOpaque | backend/src/app.ts:45-46 | the message of a non-`AppError` never reaches the client |
| Sessions.FindIndex | backend/src/services/WbotServices/StartWhatsAppSession.ts:180 | `findIndex`: -1 exactly when no entry has the id; otherwise the first entry with it |
| Sessions.Others | backend/src/services/WbotServices/StartWhatsAppSession.ts:129-132 | the entries of all other accounts, in registry order, none with the id |
| Sessions.ReadyRegisters | backend/src/services/WbotServices/StartWhatsAppSession.ts:129-132 | push-if-absent keeps at most one entry per id, registers the account, and keeps every other account's entries in order |
| Sessions.ReadyKeepsRegisteredClient | backend/src/services/WbotServices/StartWhatsAppSession.ts:129-132 | a second client of a registered account is not added; the first stays |
| Sessions.WithoutUnregisters | backend/src/services/WbotServices/StartWhatsAppSession.ts:147-150 | find-and-splice keeps at most one entry per id, leaves the account unregistered and adds no client |
| Sessions.WithoutKeepsOthers | backend/src/services/WbotServices/StartWhatsAppSession.ts:191-196 | find-and-splice leaves every other account's entries in place and in order |
| Sessions.WithoutKeepsRegistered | backend/src/services/WbotServices/StartWhatsAppSession.ts:147-150 | find-and-splice leaves every other account registered exactly as before |
| Sessions.Registry.constructor | backend/src/services/WbotServices/StartWhatsAppSession.ts:12 | the registry starts empty |
| Sessions.Attempt.constructor | backend/src/services/WbotServices/StartWhatsAppSession.ts:33-38 | an attempt holds the account, a client stamped with the account id, and a pending promise |
| Sessions.Registry.InitWbot | backend/src/services/WbotServices/StartWhatsAppSession.ts:32-38 | every call builds a brand-new client, not in the registry, without consulting it |
| Sessions.Registry.OnQr | backend/src/services/WbotServices/StartWhatsAppSession.ts:79-90 | the account gets status `qrcode`, the payload as `qrcode`, and `retries` 0 |
| Sessions.Registry.OnAuthFailure | backend/src/services/WbotServices/StartWhatsAppSession.ts:96-112 | the account is `DISCONNECTED` with empty `qrcode` and `retries` 0; a pending start promise is rejected with `ERR_SESSION_EXPIRED`; the registry and the restart log are untouched |
| Sessions.Registry.OnReady | backend/src/services/WbotServices/StartWhatsAppSession.ts:114-136 | the account is `CONNECTED`; the client is pushed only when its account has no entry; ids stay unique; other accounts keep their entries; the listener is attached; a pending promise resolves to the client |
| Sessions.Registry.Splice | backend/src/services/WbotServices/StartWhatsAppSession.ts:147-150 | the registry becomes `Without` the account: no entry for it remains, every other entry is kept in order, and the invariant holds |
| Sessions.Registry.OnDisconnected | backend/src/services/WbotServices/StartWhatsAppSession.ts:138-162 | the account's entry is cut out and other entries kept; the account is `DISCONNECTED` with empty `qrcode` and `retries` 0; exactly one restart is scheduled |
| Sessions.Registry.GetWbot | backend/src/services/WbotServices/StartWhatsAppSession.ts:179-187 | `ERR_WAPP_NOT_INITIALIZED` exactly when no entry has the id; otherwise a registered client with that id |
| Sessions.Registry.RemoveWbot | backend/src/services/WbotServices/StartWhatsAppSession.ts:189-200 | the entry, if any, is destroyed and cut out, others kept; with no entry nothing changes; `destroy()` is taken to succeed |
| Sessions.LifecycleComposition | backend/src/services/WbotServices/StartWhatsAppSession.ts:129-196 | `ready`, `disconnected`, `ready` again and `removeWbot` keep one entry per account, and the account's lookup ends in `ERR_WAPP_NOT_INITIALIZED` |
| Strings.Split | backend/src/services/WbotServices/wbotMessageListener.ts:608 | `split` on one character gives at least one piece and no piece holds the separator |
| Strings.JoinOfSplit | backend/src/services/WbotServices/wbotMessageListener.ts:102 | joining the pieces of a split with the same separator gives back the string |
| Strings.SplitOfJoin | backend/src/services/WbotServices/wbotMessageListener.ts:285 | splitting a join of separator-free pieces gives back the pieces |
| Strings.DigitsOf | backend/src/services/WbotServices/wbotMessageListener.ts:321-322 | `replace(/\D/g, "")` gives a digit string no longer than the input; it leaves a digit string unchanged, keeps a single digit and drops a single non-digit |
| Strings.DigitsOfConcat | backend/src/services/WbotServices/wbotMessageListener.ts:321-322 | stripping non-digits works piece by piece, so with the one-character cases every result is fixed |
| Strings.Lower | backend/src/services/WbotServices/wbotMessageListener.ts:532 | `toLowerCase` keeps the length and lowers exactly the ASCII capitals |
| Strings.ParseDecimal | backend/src/services/WbotServices/wbotMessageListener.ts:209 | a reply is a number exactly when it is a non-empty digit string |
| Strings.ParseOfNatToString | backend/src/services/WbotServices/wbotMessageListener.ts:209-226 | reading back the number printed in the menu gives the number |
| MessageFormat.IsValidMsg | backend/src/services/WbotServices/wbotMessageListener.ts:247-262 | false for `status@broadcast`; otherwise true exactly for the nine content types |
| MessageFormat.OwnMessagesKept | backend/src/services/WbotServices/wbotMessageListener.ts:472-481 | an unmarked own message with media, or of type location, chat or vcard, passes the self-echo filter |
| MessageFormat.LocationBodyFields | backend/src/services/WbotServices/wbotMessageListener.ts:170-188 | the location body splits on `\|` into thumbnail, maps link and label (the description, or `lat, lng`) |
| MessageFormat.FirstPiece | backend/src/services/WbotServices/wbotMessageListener.ts:162 | `split(sep)[0]`: the longest prefix without the separator, which ends the string or is followed by it |
| MessageFormat.LocationPreview | backend/src/services/WbotServices/wbotMessageListener.ts:158-165 | `Localization` without a description; otherwise exactly `Localization - ` followed by the description up to its first `\n` |
| MessageFormat.MakeRandomId | backend/src/services/WbotServices/wbotMessageListener.ts:69-80 | exactly `length` characters, the i-th being the alphabet character the i-th draw picks |
| MessageFormat.RandomIdHasNoDot | backend/src/services/WbotServices/wbotMessageListener.ts:69-80 | the random id has no dot, since none of the 62 alphabet characters is one |
| MessageFormat.StemAndExtension | backend/src/services/WbotServices/wbotMessageListener.ts:101-106 | a dotted name is its stem, a dot, and a dot-free extension |
| MessageFormat.NamedFilenameKeepsExtension | backend/src/services/WbotServices/wbotMessageListener.ts:101-106 | the stored name keeps the extension, and its stem is the old stem, a dot and the random id |
| MessageFormat.UndottedNameBecomesExtension | backend/src/services/WbotServices/wbotMessageListener.ts:101-106 | a name without a dot is stored as `.` + random id + `.` + name |
| MessageFormat.MimeSubtype | backend/src/services/WbotServices/wbotMessageListener.ts:98 | defined exactly when the mime type has a `/`; the result holds neither `/` nor `;`, and the mime type starts with the kind, a `/` and the result, followed by its end, a `/` or a `;` |
| MessageFormat.UnnamedMediaFilename | backend/src/services/WbotServices/wbotMessageListener.ts:97-99 | exactly `randomId-time.` followed by the mime subtype, defined exactly when the mime type has a `/` |
| MessageFormat.StoredFilename | backend/src/services/WbotServices/wbotMessageListener.ts:97-107 | building the name fails only for an unnamed file whose mime type has no `/` |
| MessageFormat.StoredFilenameExtension | backend/src/services/WbotServices/wbotMessageListener.ts:95-107 | a named file keeps its extension; an unnamed one is `randomId-time.subtype` |
| MessageFormat.TranscriptLines | backend/src/services/WbotServices/wbotMessageListener.ts:265-292 | with one-line bodies the history has min(10, n) lines, oldest first, each `Asistente: ` or `Cliente: ` plus the body |
| MessageFormat.MenuEntries | backend/src/services/WbotServices/wbotMessageListener.ts:225-227 | one entry per queue, the i-th reading `*i+1* - name` |
| MessageFormat.BuildOptions | backend/src/services/WbotServices/wbotMessageListener.ts:223-227 | the `forEach` builds the numbered options text of the queues in order |
| MessageFormat.MenuOptionsLines | backend/src/services/WbotServices/wbotMessageListener.ts:223-229 | read line by line, the options text is the numbered entries in queue order |
| MessageFormat.ChosenQueue | backend/src/services/WbotServices/wbotMessageListener.ts:207-211 | a queue of the list, and none exactly when the reply is not a number from 1 to the queue count |
| MessageFormat.SelectionPicksQueue | backend/src/services/WbotServices/wbotMessageListener.ts:207-227 | replying with the number shown in front of a queue picks that queue |
| MessageFormat.PlusValues | backend/src/services/WbotServices/wbotMessageListener.ts:614-617 | only values containing `+` are collected |
| MessageFormat.CardNumbers | backend/src/services/WbotServices/wbotMessageListener.ts:608-617 | every collected number contains `+` |
| MessageFormat.ScanLine | backend/src/services/WbotServices/wbotMessageListener.ts:613-621 | the inner loop appends the line's `+` values in order and ends with the value after the line's last `FN` match, or the earlier name |
| MessageFormat.ScanCard | backend/src/services/WbotServices/wbotMessageListener.ts:606-622 | the nested loops collect the card's `+` values and end with the value after the last `FN` match |
| MessageFormat.PlusValuesMembers | backend/src/services/WbotServices/wbotMessageListener.ts:614-617 | a value is collected exactly when it is in the line and contains `+` |
| MessageFormat.CardNumbersMembers | backend/src/services/WbotServices/wbotMessageListener.ts:608-617 | the numbers are exactly the `:`-separated values with a `+` on some line |
| MessageFormat.TrailingFnLeavesNameUndefined | backend/src/services/WbotServices/wbotMessageListener.ts:618-620 | an `FN` match in the last value of the card's last line leaves the name undefined, since the value after it does not exist |
| MessageListener.ReplayConcat | backend/src/services/WbotServices/wbotMessageListener.ts:345-423 | the ticket table after consecutive writes is the table after the first ones, updated by the rest |
| MessageListener.ReplayWithoutTicketEffects | backend/src/services/WbotServices/wbotMessageListener.ts:430-435 | sends and other non-ticket effects leave the ticket table unchanged |
| MessageListener.Upsert | backend/src/services/WbotServices/wbotMessageListener.ts:167 | the record is stored under its id with the stored ack kept (0 when new); every other record is unchanged |
| MessageListener.UpsertIdempotent | backend/src/services/WbotServices/wbotMessageListener.ts:167 | storing the same message twice is storing it once |
| MessageListener.SetAck | backend/src/services/WbotServices/wbotMessageListener.ts:647-660 | with no record nothing changes; otherwise only that record's `ack` changes |
| MessageListener.QuotedRef | backend/src/services/WbotServices/wbotMessageListener.ts:53-67 | the quoted id is kept exactly when that message is stored |
| MessageListener.NewestFirst | backend/src/services/WbotServices/wbotMessageListener.ts:267-272 | the history holds only stored messages of the ticket, newest first |
| MessageListener.NewestFirstComplete | backend/src/services/WbotServices/wbotMessageListener.ts:267-272 | every stored message of the ticket in the arrival order is in its history |
| MessageListener.NewestFirstIgnoresNewId | backend/src/services/WbotServices/wbotMessageListener.ts:267-272 | storing a new id changes no older entry of any history |
| MessageListener.NewMessageHeadsHistory | backend/src/services/WbotServices/wbotMessageListener.ts:267-272 | a newly stored message of the ticket is the newest entry, ahead of the old history |
| MessageListener.HistoryEndsWithNewMessage | backend/src/services/WbotServices/wbotMessageListener.ts:265-292 | the transcript built right after a new message is stored ends with that message's line |
| MessageListener.TestNumber | backend/src/services/WbotServices/wbotMessageListener.ts:318 | a set, non-empty variable is the test number; the default is used exactly when the variable is unset or empty, or is that number |
| MessageListener.TestGateIgnoresFormatting | backend/src/services/WbotServices/wbotMessageListener.ts:320-331 | the test gate compares digits only |
| MessageListener.MenuOrResponder | backend/src/services/WbotServices/wbotMessageListener.ts:571-595 | the queue-menu guard and the responder guard never both hold for one message |
| MessageListener.InfoReadsBack | backend/src/services/WbotServices/wbotMessageListener.ts:552-555 | `/info` has four lines: the ticket number, the status, an assignee line that says the bot is active exactly when no user is assigned, and a queue line that says `Sin cola` exactly when there is no queue |
| MessageListener.CardCreationsDistinct | backend/src/services/WbotServices/wbotMessageListener.ts:623-628 | no card creates the same number twice |
| MessageListener.CardCreationsFields | backend/src/services/WbotServices/wbotMessageListener.ts:623-628 | at most one creation per number; each carries the card's name and a digit-only number not yet known |
| MessageListener.StoringFields | backend/src/services/WbotServices/wbotMessageListener.ts:82-168 | storing fails exactly when the media path throws; the record carries the message id, the ticket, the author, the read flag, the stored quote and ack 0; the writes only name files and end with the ticket's last message; media keeps its URL, kind and file write, and text its prepared body |
| MessageListener.AssignedTicketGetsNoReply | backend/src/services/WbotServices/wbotMessageListener.ts:571-598 | on a ticket with an assigned user the follow-ups send nothing, ask the responder nothing, store nothing and schedule no menu |
| MessageListener.AssignedTicketStoresOnly | backend/src/services/WbotServices/wbotMessageListener.ts:526-632 | on such a ticket, from the lookup to the card contacts, the message itself is the only record added and nothing is sent or asked of the responder |
| MessageListener.Backend.Log | backend/src/services/WbotServices/wbotMessageListener.ts:199-202 | a write is logged and applied to the ticket table, which stays the replay of the log |
| MessageListener.Backend.CreateMessage | backend/src/services/WbotServices/wbotMessageListener.ts:167 | the record is upserted; a new id is appended to the arrival order |
| MessageListener.Backend.SendMessage | backend/src/services/WbotServices/wbotMessageListener.ts:219 | one send is logged; the client returns a fresh outgoing text message with that body |
| MessageListener.Backend.PrepareLocation | backend/src/services/WbotServices/wbotMessageListener.ts:170-188 | the body becomes thumbnail `\|` maps link `\|` label, in place |
| MessageListener.Backend.VerifyMessage | backend/src/services/WbotServices/wbotMessageListener.ts:138-168 | a location is prepared first; the ticket's last message becomes the location preview or the body; the message is stored with sender, read flag and stored quote |
| MessageListener.Backend.RecordMedia | backend/src/services/WbotServices/wbotMessageListener.ts:108-133 | the file write and the ticket's last message (the body, or the file name when the body is empty) are logged, and the message is stored with its media URL and kind |
| MessageListener.Backend.VerifyMediaMessage | backend/src/services/WbotServices/wbotMessageListener.ts:82-136 | no media gives `ERR_WAPP_DOWNLOAD_MEDIA`; an unnamed file with no `/` in its mime type fails too; it succeeds exactly otherwise; either failure changes nothing. Otherwise the file is written under the stored name, which keeps a named file's extension, the last message is the body or that name, and the message is stored with media URL and kind |
| MessageListener.Backend.VerifyQueue | backend/src/services/WbotServices/wbotMessageListener.ts:190-245 | with one queue, only its id is written; a valid numeric choice writes that queue, then sends and stores the marked greeting; otherwise the marked greeting and numbered menu are scheduled under the ticket id, replacing any earlier one; the way taken is `QueueRouting` and the new state `AfterRouting` |
| MessageListener.Backend.AutoRespond | backend/src/services/WbotServices/wbotMessageListener.ts:309-444 | outside the test number nothing happens; a closed ticket is reopened first; an assigned user, a missing queue or an unconfigured responder stop it; a reply is sent exactly when every gate passes and the answer is non-empty; the outcome and the log are those of `AutoOutcomeOf` and `ResponderEffects` |
| MessageListener.Backend.GuardedConverse | backend/src/services/WbotServices/wbotMessageListener.ts:336-435 | once the test gate passed, the outcome is the responder's; the three guards log nothing; past them the conversation's asks, escalation and reply are logged and the reply stored |
| MessageListener.Backend.Converse | backend/src/services/WbotServices/wbotMessageListener.ts:376-435 | the responder gets the body and the transcript in the sales phase; an empty answer stops; otherwise an escalation action hands over to the agent, then the marked reply is sent and stored |
| MessageListener.Backend.Escalate | backend/src/services/WbotServices/wbotMessageListener.ts:401-423 | each of the three actions writes `userId` = agent and status `open`; any other action writes nothing |
| MessageListener.Backend.Reply | backend/src/services/WbotServices/wbotMessageListener.ts:430-435 | one send to `number@c.us`, then the last message and the stored record of the sent text |
| MessageListener.Backend.CreateContact | backend/src/services/WbotServices/wbotMessageListener.ts:624-627 | one contact creation is logged; the ticket table, the message store and the pending menus are unchanged |
| MessageListener.Backend.ContactsKeepTickets | backend/src/services/WbotServices/wbotMessageListener.ts:623-628 | a card's contact creations leave the replayed ticket table as it was |
| MessageListener.Backend.CardContacts | backend/src/services/WbotServices/wbotMessageListener.ts:606-632 | a `vcard` logs exactly the creations of its scanned numbers and name, and the count returned is their number; any other type creates nothing; the store, the arrival order and the pending menus are unchanged |
| MessageListener.Backend.CreateCardContacts | backend/src/services/WbotServices/wbotMessageListener.ts:623-628 | contacts are created in card order with digit-only numbers, stopping at the first number that already exists |
| MessageListener.Backend.HandleMsgAck | backend/src/services/WbotServices/wbotMessageListener.ts:641-670 | with no stored message nothing changes; otherwise only its `ack` changes and it is published to its ticket's room |
| MessageListener.Backend.HandleMessage | backend/src/services/WbotServices/wbotMessageListener.ts:452-637 | invalid, self-echo and farewell-echo messages change nothing, each exactly under its condition; past them each command runs exactly when the message is that command, the media failure happens exactly when storing fails, and the message is persisted exactly otherwise; a command stores only its reply, not the command message, and leaves the menus as they were (`AfterCommand`); a media failure leaves only the ticket lookup; the persisted state is the ticket lookup, the stored record of `Storing` and the three follow-ups (`FollowUpsOf`); on a ticket with an assigned user only the message is stored, and nothing is sent or asked of the responder |
| MessageListener.Backend.Screen | backend/src/services/WbotServices/wbotMessageListener.ts:463-515 | the three early exits, each exactly under its condition: an invalid event, an own message the self-echo filter drops, and a farewell echo with no unread messages |
| MessageListener.Backend.HandleTicketMessage | backend/src/services/WbotServices/wbotMessageListener.ts:530-632 | each command stage exactly when the message is that command, storing only its reply (`AfterCommand`); otherwise a media failure exactly when storing fails, with its error and nothing changed; a persisted message leaves the stored record of `Storing` followed by the follow-ups, and the stage names the menu's way, the responder's outcome and the contacts created |
| MessageListener.Backend.AgentCommand | backend/src/services/WbotServices/wbotMessageListener.ts:531-561 | `/activar-ritual` sets the ticket pending and confirms; `/info` replies with the ticket info; the reply is sent and stored under the send's id, and the command message is not stored (`AfterCommand`); each exactly when an own message starting with `/` lower-cases to it (`AgentCommandOf`); anything else changes nothing |
| MessageListener.Backend.StoreAndFollowUp | backend/src/services/WbotServices/wbotMessageListener.ts:562-632 | a media failure exactly when storing fails, changing nothing; otherwise the stored record of `Storing`, then the state and stage of `FollowUpsOf` |
| MessageListener.Backend.StoreMessage | backend/src/services/WbotServices/wbotMessageListener.ts:563-568 | it fails exactly when the media path throws, with `ERR_WAPP_DOWNLOAD_MEDIA` or `TypeError`, and changes nothing then; otherwise the writes and the record of `Storing` are logged and stored; a location body is rewritten in place |
| MessageListener.Backend.Route | backend/src/services/WbotServices/wbotMessageListener.ts:571-580 | the queue menu runs exactly when the ticket has no queue and no user, the chat is not a group, the message is not own and the account has queues; it then goes `verifyQueue`'s way (`QueueRouting`) with its writes, send and menu (`AfterRouting`); otherwise nothing changes |
| MessageListener.Backend.Respond | backend/src/services/WbotServices/wbotMessageListener.ts:589-598 | the responder runs exactly for a non-own, non-group `chat` message on a ticket with a queue; it then stops where `AutoOutcomeOf` says, with the writes, asks and reply of `AfterResponder`; otherwise nothing changes |
| MessageListener.Backend.FollowUps | backend/src/services/WbotServices/wbotMessageListener.ts:571-632 | the menu, the responder and the card run in order, each exactly under its guard: the state is `FollowUpsOf` and the stage names the menu's way, the responder's outcome and the number of contacts created; no stored message is lost |

## Left out

- The construction of whatsapp-web.js and puppeteer clients and their options is not modelled. A client is a value carrying its account id and a serial number. `getContact`, `getChat`, `getProfilePicUrl`, `downloadMedia`, `getQuotedMessage` and `sendMessage` are foreign calls. Their results are parameters of the methods.
- `verifyContact` and `CreateOrUpdateContactService` are not modelled; the resulting contact is a parameter. The group-contact lookup only feeds `FindOrCreateTicketService`, whose resulting ticket is a parameter too.
- `FindOrCreateTicketService`, `UpdateTicketService`, `CreateMessageService`, `ShowWhatsAppService`, `CreateContactService` and the Mustache `formatBody` are not part of this model:
  - a found ticket is logged as the stored row;
  - an update writes the fields given and leaves a field given as `undefined` unchanged, so `/activar-ritual` only sets the status to `pending`;
  - a created message is an upsert keyed by message id that keeps a stored ack;
  - a contact creation fails when the number already exists;
  - `formatBody` is a function parameter.
- `verifyQueue`'s `+selectedOption` is modelled as decimal digit strings only. JavaScript's unary `+` also accepts surrounding white space, a leading sign, decimal fractions with zero fraction (`2.0`, `2.`), exponent notation, and hexadecimal, binary and octal literals (`0x2`, `0b10`, `0o2`), and maps the empty string to 0 (which picks no queue).
- The queue-menu guard tests `!ticket.queue`, the loaded queue association. The model reads it as `!Truthy(queueId)`: with the foreign key on `queueId`, the association is missing exactly when the id is NULL or names no queue, and 0 names none.
- Failures of `sendMessage`, `UpdateTicketService` and `CreateMessageService` are not modelled: each call succeeds. In the code the steps before a failure stay done, and what follows depends on where it happens:
  - at wbotMessageListener.ts lines 133, 167, 199, 212, 219, 542 and 557 it ends the rest of `handleMessage` through the outer `catch` (lines 633-636);
  - at lines 346 and 430 it ends the responder through its own `catch` (line 439), and the contact-card branch still runs;
  - at line 233 it happens in the debounced send, after `handleMessage` has returned.
- Timing is not modelled:
  - the 500 ms pause before an ack;
  - the 5000 ms reconnect delay, which is recorded but not waited for;
  - the 3000 ms debounce, which is modelled only as a pending send per ticket id where a later one replaces an earlier one (the debounce helper is not part of this model);
  - the later firing of a debounced menu.
- Concurrency is not modelled: handlers run fire-and-forget, and two events may interleave. Each handler runs to completion here.
- Writing the media file is only logged; a failed write is only logged in the code too. Sentry and the logger are not modelled. The session manager's socket.io emits are recorded only as the account id appended to `Registry.emitted`, without the payload. The emits of `CreateMessageService` are not modelled, and the ack handler's publish is logged.
- The catch paths that only log are modelled as "nothing further happens":
  - the failing database query in `getConversationHistory`;
  - a failure inside the responder branch;
  - a failure inside the contact-card branch.
  A `destroy()` that fails inside `removeWbot` is not modelled. In the code the throw at StartWhatsAppSession.ts line 194 skips the `splice` at line 195, so the entry stays registered and the error is only logged. `RemoveWbot` always cuts the entry out.
- `getTicketPhase` is not called by the listener, which always passes the sales phase; the responder is asked with `Sales`.
- `parseInt(AGENT_USER_ID || "1")` is not modelled; the agent id is a parameter.
- Location coordinates are the strings JavaScript renders them to.
- Strings.Lower: lowers ASCII capitals only. JavaScript's `toLowerCase` covers all of Unicode, but no other character lowers to a letter of `/info` or `/activar-ritual`, so the two command tests come out the same.
- `syncUnreadMessages` in the session manager is not called in this code and is not modelled. Neither are the `authenticated` log handler or the outer `catch` of `initWbot`.
- `GeminiService`, `InstagramService`, the Instagram routes and the prompt constants are not part of this model. The responder is an answer passed in, plus a flag saying whether it is configured.
- Only the catch-all route and the error handler of the HTTP application are modelled. The middleware wiring and the route tables are not.
