# mattermost-buy-bot in Dafny

A model of the Mattermost bot that runs group buys. An organizer opens a buy
with `/createbuy`, and the bot announces it in the channel. Members mark
their interest in shares. The organizer closes the buy with payment details
(PayPal handle, Wise id, USDC wallet), and the bot sends every interested
member a payment message. Members report that they paid; the organizer
confirms or rejects each report, and can remind whoever has not paid.

The repository has two revisions of the request handlers:

- the first revision, the Express routes in `src/index.ts`, which use the
  helper modules `src/storageService.ts`, `src/buy/*.ts` and
  `src/interest/*.ts`;
- the service revision, `BuyService` and `InterestService`, built on
  `StorageService`.

Both are modelled. Where a first-revision route's body is the same as a
service method's, the route's function returns the service function's
result.

Every handler is a pure function from a store and a request to a
`Response`, which holds:

- the new store;
- the platform effects in order: posted messages, ephemeral notices, direct
  messages, opened dialogs and reactions;
- a `failed` flag for a request that ends in an unhandled exception, for
  example a `!`-asserted lookup that finds nothing or `getUser` on an
  unknown id. Writes and effects made before the exception are kept.

Modules follow the program's structure:

| file | models |
|---|---|
| `wrappers.dfy` | `Option` |
| `js.dfy` | JavaScript numbers with NaN, truthiness, template text as a sequence of pieces, `parseInt`/`parseFloat` (leading white space, sign, decimal digits, point, exponent, `Infinity`), ASCII `toLowerCase`, loosely typed JSON values |
| `entities.dfy` | buy and interest records, the table keys (`channel:user` partition key) and their order |
| `storage.dfy` | the two tables, interest keys kept in the order a query returns them; both storage services (same semantics) |
| `state_token.dfy` | the dialog `state` strings: `JSON.stringify` and `JSON.parse` of flat string objects |
| `message_builder.dfy` | `MessageBuilder` and `AttachmentBuilder` |
| `dialog_builder.dfy` | `DialogBuilder` |
| `platform.dfy` | requests, effects, the user directory, action contexts, the closed-buy guard |
| `buy_messages.dfy` | the buy announcements, the management panel, the buy and payment dialogs, the payment message |
| `interest_messages.dfy` | the interest dialogs and confirmation, the payment confirmation request, the interest table |
| `buy_service.dfy` | `BuyService` |
| `interest_service.dfy` | `InterestService` |
| `server.dfy` | the first-revision routes in `src/index.ts` |

Message text is a sequence of `Piece`s. A piece is a constant chunk of the
template (`Lit`), an interpolated string (`Str`) or an interpolated number
(`Num`). Contracts speak about which pieces occur, in which order and next
to what, without fixing how numbers render. The longer constant parts of
a template are named string constants next to the function that uses them.

## Model

| member | source | states |
|---|---|---|
| Js.ParseInt | src/index.ts:261 | after leading white space and an optional sign, `parseInt(s, 10)` is NaN exactly when no digit follows; otherwise it is a finite whole number with the sign's sign |
| Js.ParseFloat | src/services/interest/interestService.ts:74 | after leading white space and an optional sign, `parseFloat` is infinite exactly when `Infinity` follows (negative iff the sign is `-`), NaN exactly when neither `Infinity` nor a significand (a digit, or a point then a digit) follows, and otherwise finite with the sign's sign |
| Js.ParseIntTruncatesParseFloat | src/index.ts:261 | on text without an exponent part, whenever `parseInt` yields a number, `parseFloat` yields a finite one and `parseInt` is it truncated toward zero (so "-2.5" gives -2) |
| Js.ExponentSplitsParsers | src/index.ts:261 | on "2e1" `parseInt` stops at the `e` and gives 2, while `parseFloat` reads the exponent and gives 20 |
| Js.ToLower | src/index.ts:165-167 | ASCII `toLowerCase`: keeps the length, maps each of A–Z to the letter at the same place in a–z, leaves every other character as it is, so no upper-case letter remains |
| Js.ToLowerIdentity | src/index.ts:165-167 | ASCII lower-casing leaves a string unchanged exactly when it has no letter A–Z |
| Entities.PartitionKeyInjective | src/services/storage/storageService.ts:97 | the `channel:user` partition key determines channel and user when channel ids have no colon |
| Entities.PartitionKeySameChannel | src/services/storage/storageService.ts:117 | within one channel the partition key determines the user |
| Entities.PartitionKeyCollision | src/services/storage/storageService.ts:97 | with a colon in a channel id two different (channel, user) pairs share a key |
| Entities.KeyLessStrictTotal | src/services/storage/storageService.ts:130-141 | the order a query returns entities in (partition key, then row key, strings compared character by character with a prefix first) is irreflexive, transitive and total |
| Storage.GetBuyEntity | src/services/storage/storageService.ts:146-162 | a hit exactly when the key is stored, and the record found carries the requested channel and buy id |
| Storage.IsBuyClosed | src/services/storage/storageService.ts:164-167 | true exactly when a buy is stored and its `closed` flag is `true` |
| Storage.SaveBuyEntity | src/services/storage/storageService.ts:53-85 | the key reads back the record built from exactly the passed fields; every other buy key and the interests are unchanged |
| Storage.GetInterestOfUser | src/services/storage/storageService.ts:108-124 | absent for an empty buy id; otherwise a hit exactly when (`channel:user`, buy) is stored, and the hit sits under that key |
| Storage.SaveInterest | src/services/storage/storageService.ts:87-106 | the key holds the new record, other keys keep their records, buys unchanged, and a lookup returns the new record; the table's keys stay in key order |
| Storage.GetInterestsOfBuy | src/services/storage/storageService.ts:126-144 | every stored interest of the buy id is listed, each once, and nothing else, in the order the query returns them: ascending partition key (`channel:user`) |
| Storage.CollectKeepsOrder | src/services/storage/storageService.ts:133-141 | the records collected from a scan appear in the order of their keys in the scan |
| Storage.SameRowInKeyOrder | src/services/storage/storageService.ts:126-144 | records of one buy collected from the key-ordered scan ascend by partition key |
| Storage.InterestsOfBuyIgnoresChannel | src/services/storage/storageService.ts:126-144 | the channel argument does not change the result: the filter is on the buy id alone |
| Storage.SaveInterestTwice | src/services/storage/storageService.ts:87-106 | saving twice under one key equals saving the second values once (upsert replaces) |
| Storage.ResaveLeavesOneRecord | src/services/storage/storageService.ts:87-144 | after re-saving, the buy's list holds exactly one record of that member, with the second values |
| Storage.SavedClosedFlagIsRead | src/services/storage/storageService.ts:53-85 | a buy saved with `closed` reads back as closed exactly when the flag was `true` |
| StateToken.StringifyRoundTrip | src/services/buy/buyService.ts:347 | parsing a stringified flat object of plain strings gives back its members in order |
| StateToken.BuyStateRoundTrip | src/services/buy/buyService.ts:347 | the buy dialog's state parses back to its channel, and to its buy id exactly when it had one |
| StateToken.PaymentStateRoundTrip | src/services/buy/buyService.ts:374 | the payment dialog's state parses back to both ids |
| StateToken.LowercasedPaymentState | src/index.ts:165-167 | lower-casing the payment state before parsing yields the lower-cased ids |
| StateToken.LowercasedPaymentStateFaithful | src/index.ts:165-167 | the ids survive the lower-casing exactly when neither has an upper-case letter |
| MessageBuilder.SetText | src/services/mattermost/messageBuilder.ts:73-76 | the text is replaced and nothing else changes |
| MessageBuilder.AddAttachment | src/services/mattermost/messageBuilder.ts:78-86 | the attachment is appended after the earlier ones; text and props unchanged |
| MessageBuilder.Prop | src/services/mattermost/messageBuilder.ts:88-91 | the key is set, keys grow by that key only, other props unchanged |
| MessageBuilder.ChannelId | src/services/mattermost/messageBuilder.ts:93-96 | sets `channel_id` and leaves the other props |
| MessageBuilder.UserId | src/services/mattermost/messageBuilder.ts:98-101 | sets `user_id` and leaves the other props |
| MessageBuilder.TeamId | src/services/mattermost/messageBuilder.ts:103-106 | sets `team_id` and leaves the other props |
| MessageBuilder.FromPayload | src/services/mattermost/messageBuilder.ts:108-124 | exactly the nine payload props are overwritten, with `undefined` for absent fields; other props kept |
| MessageBuilder.Build | src/services/mattermost/messageBuilder.ts:126-131 | a built message always has a `user_id` prop, `undefined` if none was set; nothing else changes |
| MessageBuilder.Pretext | src/services/mattermost/messageBuilder.ts:137-140 | replaces the pretext only |
| MessageBuilder.AttachmentText | src/services/mattermost/messageBuilder.ts:142-145 | replaces the attachment text only |
| MessageBuilder.Color | src/services/mattermost/messageBuilder.ts:147-150 | replaces the colour only |
| MessageBuilder.AddField | src/services/mattermost/messageBuilder.ts:152-158 | appends one field, earlier fields kept |
| MessageBuilder.AddButton | src/services/mattermost/messageBuilder.ts:160-176 | appends one "button" action with the given id, name, url, context and style; earlier actions kept |
| MessageBuilder.AddMenu | src/services/mattermost/messageBuilder.ts:178-194 | appends one "select" action with the given data source; earlier actions kept |
| MessageBuilder.Image | src/services/mattermost/messageBuilder.ts:196-199 | replaces the image url only |
| MessageBuilder.SetTextLastWins | src/services/mattermost/messageBuilder.ts:73-76 | the second text call wins |
| MessageBuilder.PropLastWins | src/services/mattermost/messageBuilder.ts:88-91 | the second value for a prop wins |
| MessageBuilder.TextAndAttachmentCommute | src/services/mattermost/messageBuilder.ts:73-86 | text and attachment calls commute |
| MessageBuilder.BuildIdempotent | src/services/mattermost/messageBuilder.ts:126-131 | building twice is building once |
| MessageBuilder.AttachmentsInCallOrder | src/services/mattermost/messageBuilder.ts:78-86 | attachments appear in call order |
| DialogBuilder.NewDialog | src/mattermost/dialogBuilder.ts:53-59 | a new dialog has the given callback id and title, no elements and no optional fields |
| DialogBuilder.IntroductionText | src/mattermost/dialogBuilder.ts:61-64 | sets the introduction text only |
| DialogBuilder.SubmitLabel | src/mattermost/dialogBuilder.ts:66-69 | sets the submit label only |
| DialogBuilder.NotifyOnCancel | src/mattermost/dialogBuilder.ts:71-74 | sets the notify flag only |
| DialogBuilder.State | src/mattermost/dialogBuilder.ts:76-79 | sets the state only |
| DialogBuilder.AddElement | src/mattermost/dialogBuilder.ts:81-84 | appends one element, earlier ones kept |
| DialogBuilder.TextElement | src/mattermost/dialogBuilder.ts:86-88 | appends the spec as a "text" element |
| DialogBuilder.SelectElement | src/mattermost/dialogBuilder.ts:90-92 | appends the spec as a "select" element |
| DialogBuilder.RadioElement | src/mattermost/dialogBuilder.ts:94-96 | appends the spec as a "radio" element |
| DialogBuilder.BooleanElement | src/mattermost/dialogBuilder.ts:98-100 | appends the spec as a "bool" element |
| DialogBuilder.Build | src/mattermost/dialogBuilder.ts:102-104 | the built dialog is the accumulated one |
| DialogBuilder.ElementsInCallOrder | src/mattermost/dialogBuilder.ts:81-84 | elements appear in call order and the setters do not disturb them |
| Platform.GetUser | src/services/mattermost/mattermostClient.ts:118-120 | a user exactly for a known id, with that id and its user name |
| Platform.DecodeContext | src/services/mattermost/postAction.ts:22 | a context decodes exactly when channel, buy and user ids are strings, and gives those strings back |
| Platform.ClosedGuard | src/index.ts:458-476 | the request stops exactly when the buy is closed, leaving the store and sending one closed notice |
| BuyMessages.BuyButtonContext | src/services/buy/buyService.ts:219-226 | a buy button's context decodes to the submitter's channel, the buy id and the submitter, and carries the team |
| BuyMessages.DescriptionPresence | src/services/buy/buyService.ts:206-208 | the description label is in the text exactly when the description is truthy |
| BuyMessages.AnnouncementText | src/services/buy/buyService.ts:204-212 | the announcement names the buy, and has the description label exactly when the description is truthy |
| BuyMessages.InterestAttachment | src/services/buy/buyService.ts:213-228 | one "interest" button to `/interest` whose context decodes to the new buy |
| BuyMessages.SubmissionMessage | src/services/buy/buyService.ts:202-230 | a message built from a submission carries exactly the given text and the one given attachment, with the submission's props |
| BuyMessages.SaveBuyConfirmationMessage | src/services/buy/buyService.ts:197-232 | description label iff truthy, one attachment with the interest button, props from the submission |
| BuyMessages.ManageText | src/services/buy/buyService.ts:240-248 | names the buy; description label iff truthy |
| BuyMessages.ManageAttachment | src/services/buy/buyService.ts:249-295 | four buttons in order (edit, list, close, remind) to their routes, each decoding to the new buy |
| BuyMessages.ManageMessage | src/services/buy/buyService.ts:234-299 | the panel's text, its four buttons to their routes with decodable contexts, props from the submission |
| BuyMessages.BuyElements | src/services/buy/buyService.ts:306-345 | five named fields (unit a select of mg/ml/unit, the rest text), defaults from the buy when there is one and none otherwise |
| BuyMessages.BuyDialogFor | src/services/buy/buyService.ts:301-350 | the buy dialog keeps those fields, submits as "Create", and its state carries channel and buy id |
| BuyMessages.BuyDialog | src/services/buy/buyService.ts:301-350 | the service dialog: no defaults without a buy, state names the buy's own id |
| BuyMessages.CreateBuyDialog | src/buy/createBuy.ts:18-69 | store consulted only for a truthy buy id; then all five fields are those of the buy dialog for the stored buy (name, description, unit, share size and price as defaults); the state carries the id passed in |
| BuyMessages.PaymentDetailsDialog | src/services/buy/buyService.ts:352-376 | three optional text fields (paypal, usdc wallet, wise id), no defaults, state carries both ids |
| BuyMessages.ClosedAnnouncement | src/services/buy/buyService.ts:153-161 | names the closed buy, carries the channel prop, no attachments |
| BuyMessages.HeaderLabels | src/services/buy/buyService.ts:383-387 | the header ends with the amount label followed by the amount, and holds none of the instruction lines or section labels |
| BuyMessages.HeaderLitsAreShort | src/services/buy/buyService.ts:383-387 | no constant part of the header is the "click" line or as long as the USDC label or the other instruction line |
| BuyMessages.AppendInstruction | src/services/buy/buyService.ts:389-393 | after appending the instruction, "details later" is present iff chosen, "click" iff not, and nothing else was added |
| BuyMessages.PaypalPart | src/services/buy/buyService.ts:395-397 | the PayPal section iff the handle is truthy, with the link to the handle and amount; no other label or instruction line |
| BuyMessages.WisePart | src/services/buy/buyService.ts:399-401 | the Wise section iff the id is truthy; no other label or instruction line |
| BuyMessages.UsdcPart | src/services/buy/buyService.ts:403-405 | the USDC section iff the wallet is truthy; no other label or instruction line |
| BuyMessages.JoinSections | src/services/buy/buyService.ts:395-405 | the three sections joined keep each label iff its section is present, contain each present section, and order PayPal before Wise before USDC |
| BuyMessages.Assemble | src/services/buy/buyService.ts:382-405 | header, instruction and sections together keep the amount after its label, the instruction choice, each label iff present and the section order |
| BuyMessages.DetailsPart | src/services/buy/buyService.ts:395-405 | each section present iff its detail is truthy, with its content, in the order PayPal, Wise, USDC |
| BuyMessages.PaymentText | src/services/buy/buyService.ts:382-405 | the amount shown is shares times price; "details later" iff no detail is truthy, "click" otherwise; each section iff truthy; PayPal before Wise before USDC |
| BuyMessages.MarkPayedContext | src/services/buy/buyService.ts:411-417 | the mark-payed context decodes to the interest's channel, buy and user |
| BuyMessages.PaymentAttachment | src/services/buy/buyService.ts:409-419 | one "Mark Payed" button to `/mark-payed` naming the interest |
| BuyMessages.PaymentMessage | src/services/buy/buyService.ts:378-421 | the payment text and exactly one mark-payed button naming the interest |
| InterestMessages.InterestDialogWith | src/services/interest/interestService.ts:257-282 | shares and email fields, both required text; defaults from the existing interest or 1 and ""; the given state |
| InterestMessages.InterestDialog | src/services/interest/interestService.ts:257-282 | the whole-shares label, defaults from the existing interest, state is the buy id |
| InterestMessages.LegacyInterestDialog | src/interest/createInterest.ts:5-33 | label "Shares", numeric field, defaults from the clicker's interest in the post's channel, state is the context's buy id |
| InterestMessages.InterestConfirmationMessage | src/services/interest/interestService.ts:234-255 | the acknowledgement text; one edit button whose context has only an interest id (so it does not decode); `user_id` prop undefined |
| InterestMessages.PaymentDecisionContext | src/services/interest/interestService.ts:300-324 | confirm and reject contexts decode to the channel, buy and buyer, and carry the action |
| InterestMessages.PaymentRequestText | src/services/interest/interestService.ts:290-297 | the total shown is shares times price; names the buyer and email |
| InterestMessages.DecisionAttachment | src/services/interest/interestService.ts:298-326 | confirm then reject, to their routes, contexts that differ only in the action |
| InterestMessages.PaymentConfirmationMessage | src/services/interest/interestService.ts:284-327 | the request's total and its two decodable decision buttons in order |
| InterestMessages.InterestRow | src/services/interest/interestService.ts:108-111 | a row shows user name, shares and email, and "x" exactly when payed is true; it holds no line break |
| InterestMessages.Rows | src/services/interest/interestService.ts:106-113 | rows exist exactly when every member is known, one per interest, in order |
| InterestMessages.JoinKeepsRows | src/services/interest/interestService.ts:119 | every row occurs in the joined text |
| InterestMessages.SplitJoin | src/services/interest/interestService.ts:119 | splitting the `\n`-joined rows at line breaks gives back exactly the rows, when no row holds a line break |
| InterestMessages.InterestTable | src/services/interest/interestService.ts:115-120 | header first, then every row; with no rows only the header; the text after the header splits at line breaks into exactly the rows, in order |
| BuyService.StartCreationProcess | src/services/buy/buyService.ts:32-43 | one empty buy dialog to `/save-buy` whose state has no buy id; store unchanged |
| BuyService.StartEditProcess | src/services/buy/buyService.ts:45-70 | closed buy: a notice in the post's channel; otherwise the dialog of the stored buy (looked up only for a non-empty id) |
| BuyService.SaveBuy | src/services/buy/buyService.ts:72-98 | unknown submitter: nothing; otherwise the buy stored open under the id, other buys and interests unchanged, announcement then panel |
| BuyService.CloseBuy | src/services/buy/buyService.ts:100-122 | closed buy: a notice; otherwise the payment details dialog for the context's buy |
| BuyService.ClosedBuy | src/services/buy/buyService.ts:133-137 | closed, closed now, the submitted details; every other field as before |
| BuyService.PaymentFanOut | src/services/buy/buyService.ts:168-171 | one direct message per interest, in order, to its member, with its payment message |
| BuyService.ConfirmCloseBuy | src/services/buy/buyService.ts:124-172 | missing buy: nothing; otherwise stored closed, other buys and interests unchanged, announcement first, then one payment message per interest of the buy |
| BuyService.PaymentMessageNamesInterest | src/services/buy/buyService.ts:411-417 | payment messages for interests with different keys differ |
| BuyService.FanOutReachesEachInterestOnce | src/services/buy/buyService.ts:168-171 | each interest gets its payment message exactly once |
| BuyService.ClosingReachesEachInterestOnce | src/services/buy/buyService.ts:163-171 | closing sends every stored interest of the buy its payment message exactly once |
| BuyService.Unpaid | src/services/buy/buyService.ts:180-181 | an interest is kept exactly when it is listed and its `payed` is falsy |
| BuyService.UnpaidAppend | src/services/buy/buyService.ts:180-181 | the filter extends one interest at a time |
| BuyService.RemindersReachExactlyUnpaid | src/services/buy/buyService.ts:180-194 | reminders reach every unpaid member and nobody else |
| BuyService.Remind | src/services/buy/buyService.ts:180-194 | succeeds iff every unpaid member is known, then one reminder per unpaid interest in order; on failure the reminders to the unpaid interests before the first unpaid one whose member is unknown |
| BuyService.KnownUnpaidSucceeds | src/services/buy/buyService.ts:180-194 | when every unpaid member up to the end is known, no unpaid member is unknown |
| BuyService.UnknownUnpaidFails | src/services/buy/buyService.ts:180-194 | an unpaid interest with an unknown member means not every unpaid member is known |
| BuyService.RemindPayment | src/services/buy/buyService.ts:174-195 | nothing unpaid: nothing sent; unpaid but no buy: fails at once; otherwise reminders naming the stored buy, and on failure exactly those before the first unknown unpaid member |
| InterestService.StartInterestProcess | src/services/interest/interestService.ts:31-57 | closed buy (looked up in the post's channel): notice; missing buy: fails; otherwise the interest dialog with the clicker's existing interest |
| InterestService.SaveInterest | src/services/interest/interestService.ts:59-97 | closed: notice; shares not a whole number: notice, nothing stored; otherwise the parsed shares and email stored, payed unset, every other interest record and the buys unchanged, acknowledgement |
| InterestService.SavedSharesAreWhole | src/services/interest/interestService.ts:74-90 | whatever this handler stores is a whole number of shares |
| InterestService.ShowInterestList | src/services/interest/interestService.ts:99-122 | succeeds iff every member is known; then one ephemeral table: only the header when the buy has no interest, otherwise its lines after the header are exactly one row per interest, in listing order, each with that member's name |
| InterestService.MarkPayed | src/services/interest/interestService.ts:124-151 | succeeds iff clicker, buy, organizer and interest exist; then the request to the organizer (buttons name the interest's channel) and the thanks to the member |
| InterestService.ConfirmPaymentKeyedBy | src/services/interest/interestService.ts:153-192 | missing buyer interest: nothing; otherwise the payed=true write, then exactly the thanks and, if the buy exists, the confirmation naming it and the two reactions; a missing buy fails after the thanks |
| InterestService.ConfirmPayment | src/services/interest/interestService.ts:153-192 | as written: the payed=true record is stored under the clicker, not the buyer |
| InterestService.RejectPaymentKeyedBy | src/services/interest/interestService.ts:194-232 | missing buyer interest: nothing; otherwise the payed=false write; the notices and reactions iff the buyer is known |
| InterestService.RejectPayment | src/services/interest/interestService.ts:194-232 | as written: the payed=false record is stored under the clicker, not the buyer |
| InterestService.ConfirmByOrganizerLeavesBuyerRecord | src/services/interest/interestService.ts:166-173 | when the organizer confirms, the buyer's own record is unchanged |
| InterestService.ConfirmByOrganizerExample | src/services/interest/interestService.ts:166-173 | a concrete store where the buyer's record stays unpaid after confirmation |
| InterestService.ConfirmPaymentForBuyer | src/services/interest/interestService.ts:153-192 | corrected: the buyer's record becomes payed=true |
| InterestService.RejectPaymentForBuyer | src/services/interest/interestService.ts:194-232 | corrected: the buyer's record becomes payed=false |
| InterestService.ConfirmThenRejectForBuyer | src/services/interest/interestService.ts:153-232 | corrected: confirming then rejecting leaves the buyer's record payed then unpayed |
| Server.CreateBuy | src/index.ts:48-65 | one empty buy dialog to `/save-buy`, state without a buy id |
| Server.ChosenBuyId | src/index.ts:74 | the state's buy id when present, else the fresh id |
| Server.SaveBuy | src/index.ts:67-98 | undecodable state: the request fails with nothing written; a decoded state is handled as below |
| Server.SaveParsed | src/index.ts:73-97 | unknown user: nothing; otherwise the buy stored in the submission's channel under the state's id (or the fresh one), others unchanged; effects exactly the announcement posted to the state's channel, then the panel sent to the submitter |
| Server.SaveParsedKeepsOthers | src/index.ts:73-85 | saving one buy leaves the closed flag of every other buy as it was |
| Server.SavedChannel | src/index.ts:93 | the state's channel id, or the empty id when it has none |
| Server.EditBuy | src/index.ts:100-130 | closed: notice in the context's channel; otherwise the buy dialog for the context's buy |
| Server.EditThenSaveKeepsId | src/index.ts:67-130 | as written: submitting an edit dialog stores the buy under its id in the submitting channel; the keys grow by that key only; from the buy's own channel it overwrites the buy, from any other channel the buy is left as it was |
| Server.EditFromPanelSplitsBuy | src/index.ts:76-85 | an edit submitted from the direct channel leaves the announced buy unchanged and adds a second record under the direct channel |
| Server.StateChannelSaveBuy | src/index.ts:67-98 | corrected: the buy is stored, and its buttons point, in the channel the state names; others unchanged; announcement then panel |
| Server.StateChannelEditKeepsId | src/index.ts:67-130 | corrected: an edit submitted from any channel overwrites the buy it was opened for and adds no buy key |
| Server.CreateThenSaveMintsId | src/index.ts:48-98 | submitting a create dialog stores the buy under the fresh id |
| Server.SaveBuyReopensClosedBuy | src/index.ts:67-98 | as written: a submission from the buy's own channel naming a closed buy leaves it open with its payment details gone |
| Server.SaveBuyReopensExample | src/index.ts:67-98 | a concrete closed buy reopened by a stale edit submission |
| Server.GuardedSaveBuy | src/index.ts:67-98 | corrected: a buy closed in the state's channel gets a notice and no write; otherwise the state-channel save |
| Server.ClosedBuyStaysClosed | src/index.ts:67-98 | corrected: a closed buy stays closed across any submission |
| Server.CloseBuy | src/index.ts:132-159 | closed: notice; otherwise the payment details dialog |
| Server.CloseBuyConfirm | src/index.ts:161-214 | undecodable state or missing id: nothing; otherwise closes the buy under the lower-cased ids as the service does |
| Server.CloseDialogClosesItsBuy | src/index.ts:132-214 | the dialog closes its buy under the lower-cased ids, and under the original ids when they have no upper-case letter |
| Server.Interest | src/index.ts:216-239 | closed: notice; otherwise the first revision's interest dialog |
| Server.SaveInterest | src/index.ts:241-273 | closed: notice; otherwise `parseInt(shares)` and the email stored, payed unset, every other interest record and the buys unchanged, acknowledgement |
| Server.SaveInterestTruncates | src/index.ts:261 | for shares text without an exponent part that `parseInt` reads, the stored count is what `parseFloat` reads, truncated toward zero |
| Server.RevisionsAgreeOnWholeShares | src/index.ts:241-273 | on shares text without an exponent part that both parsers read as the same whole number, both revisions store the same record |
| Server.RevisionsDisagreeOnExponent | src/index.ts:261 | on shares "2e1" the first revision stores 2 and the service revision stores 20 |
| Server.MarkPayed | src/interest/markPayed.ts:4-48 | as the service, but the decision buttons name the context's channel |
| Server.MarkPayedRevisionsAgree | src/index.ts:304-333 | both revisions agree when no channel id has a colon |
| Server.MarkPayedButtonsFindTheInterest | src/interest/markPayed.ts:4-48 | the confirm button's context finds the interest the member reported |
| Server.InterestList | src/index.ts:275-302 | store unchanged; succeeds iff every member is known; then one ephemeral table to the clicker whose lines after the header are exactly one row per interest, in listing order |
| Server.ConfirmPayment | src/index.ts:335-380 | missing buyer interest: nothing; otherwise the buyer's shares and email stored payed=true under the clicker's key, the thanks first, and failure exactly when the buy is missing |
| Server.RejectPayment | src/index.ts:382-426 | missing buyer interest: nothing; otherwise the buyer's shares and email stored payed=false under the clicker's key; failure exactly when the buyer is unknown, else four effects ending in the "x" reaction |
| Server.RemindPayment | src/index.ts:428-451 | succeeds iff every unpaid member is known; reminders name the context's `buy_name`; on failure exactly the reminders before the first unknown unpaid member were sent |
| Server.ReminderFromPanelSaysUndefined | src/index.ts:443 | the panel's remind button has no `buy_name`, so the reminder says "undefined" |

The first-revision routes `/interestlist`, `/confirm-payment` and
`/reject-payment` have the same bodies as `InterestService.showInterestList`,
`confirmPayment` and `rejectPayment`; Server.InterestList,
Server.ConfirmPayment and Server.RejectPayment return the service
functions' results. The first-revision helpers
`createSaveBuyConfirmationMessage` and `createManageMessage`
(src/buy/saveBuy.ts), `createPaymentMessage` (src/buy/closeBuy.ts) and
`createPaymentDetailsDialog` (src/storageService.ts:157-184) build the same
messages as their service counterparts. The storage functions of
`src/storageService.ts` have the same semantics as those of the storage
service.

## Left out

- Network I/O, the HTTP responses (`res.status`, `res.json`) and logging are not modelled; effects are recorded in order instead.
- Concurrency is not modelled: `Promise.all` in the interest list is modelled as a sequential map. A failed lookup fails the whole request with no effects.
- Floating point is not modelled: finite numbers are exact reals, and how numbers render into text is left abstract.
- Js.ParseFloat: values beyond the double range are exact reals instead of `Infinity`, and there is no rounding to the nearest double (e.g. "1e400" is stored as a whole number where the service would see `Infinity` and refuse it). Hexadecimal `0x` prefixes are not relevant to base 10 and not modelled.
- Server.SaveInterestTruncates: holds only for shares text without an exponent part; with one, `parseInt` stops at the `e` (see Server.RevisionsDisagreeOnExponent).
- Server.RevisionsAgreeOnWholeShares: holds only for shares text without an exponent part, for the same reason.
- Js.ToLower: only A–Z are lower-cased. JavaScript's `toLowerCase` also maps other capitals (such as 'Ä'), and can change the length (for 'İ'). Lower-casing is applied only to channel ids and uuid buy ids, which are ASCII.
- Js.ToLowerIdentity: holds for the ASCII model only, for the same reason.
- Entities.StrLess: key strings are compared character by character. The table service's own collation is not part of this model; for the ASCII ids used here an ordinal comparison gives the same order.
- Storage.SaveBuyEntity / Storage.SaveInterest: upsert is modelled as replace. The source calls `upsertEntity` without a mode, and the table client's default mode is merge. Under merge, a field passed as `undefined` would keep its stored value instead of clearing it, and re-saving an interest would keep a stored `payed` flag.
- `uuidv4()` and `new Date()` are parameters (`freshId`, `now`).
- `JSON.parse` and `JSON.stringify` are modelled for flat objects of plain strings (no quote, backslash or escape). A state that is not such an object fails the request.
- Server.SaveBuy: a state with no `channel_id` announces in the empty channel id; in the source the id is `undefined`.
- The mattermost client's requests and the bot token are not modelled. `getUser` is a lookup in a directory; an unknown id throws.
- Message and dialog fields that no handler reads (emoji text beyond the pieces, colours, display names of most elements) are carried as given and not constrained.
- `BOT_URL` is a fixed constant.
- Entities.PartitionKeyInjective: needs colon-free channel ids, because the `channel:user` key is ambiguous otherwise (see Entities.PartitionKeyCollision).
- Server.MarkPayedRevisionsAgree: needs colon-free channel ids, for the same reason.

## Findings

| source | as written | input that shows it | evidently intended | confidence | as-written member | corrected member |
|---|---|---|---|---|---|---|
| src/services/interest/interestService.ts:166-173 | confirm and reject write the payed flag under the clicking user's key (`post.user_id`), who is the organizer | the organizer confirms a buyer's payment: the buyer's record stays unpaid, and a new record appears under the organizer | write the flag on the buyer's record (`post.context.user_id`) | not executed | InterestService.ConfirmPayment | InterestService.ConfirmPaymentForBuyer |
| src/index.ts:443 | the reminder interpolates `context.buy_name`, which no button sets | the panel's "Remind Payment" button: the reminder reads `Please pay for the buy **undefined**` | name the stored buy, as the service revision does | not executed | Server.ReminderFromPanelSaysUndefined | BuyService.RemindPayment |
| src/index.ts:67-98 | `/save-buy` has no closed-buy guard | with upsert as replace (see Left out), and with the edit dialog submitted from the buy's own channel: an edit dialog opened before closing and submitted after stores the buy with `closed` undefined, so it reads as open, and its payment details are erased. The panel with the Edit button arrives by direct message, so this path needs a buy created in that same direct channel; from any other channel the edit writes a separate record instead (next row). Under a merge upsert the `undefined` fields would keep their stored values and the buy would stay closed, while its name, price and description would still change | refuse to overwrite a closed buy, as every other write route does | not executed | Server.SaveBuyReopensClosedBuy | Server.GuardedSaveBuy |
| src/index.ts:76-85 | `/save-buy` stores the buy under `submission.channel_id`, the channel the dialog is submitted from (the service's `saveBuy` does the same) | the Edit button sits in the panel sent by direct message, so an edit is submitted from the direct channel: the buy announced in its channel keeps its old values, and a second record appears under the direct channel, whose new buttons point to it | store under the channel the state names, as `/close-buy-confirm` does | not executed | Server.EditFromPanelSplitsBuy | Server.StateChannelSaveBuy |
