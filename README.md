# A verified model of the generator marketplace

The marketplace lists used diesel generators. Sellers post listings as
WhatsApp messages. A webhook service queues each delivery in Redis, and a
parser worker takes messages off the queue. It reads the labelled fields
of each text (brand, model, price, hours run, location and so on), stores
a listing in MongoDB, pending review when the parse succeeded and failed
otherwise, and counts it for the seller. A reply
"sold" to a listing message marks that listing sold. A Next.js site shows
the listings for sale, gives administrators their own listing view and a
form to add a listing by hand, and uploads images.

This project models that core in Dafny and proves properties of the
model. One module stands for each part of the system.

- `JsText`, `Json` and `Wrappers` hold the JavaScript behaviour the rest relies on:
  - `trim` and its white-space set, `parseInt`, `toLowerCase` (for ASCII letters), the case folding of a regular expression's `i` flag (for ASCII and Latin-1 letters), `split(/\s+/)` and `slice(-n)`;
  - truthiness, property access on parsed JSON, and Mongoose's cast of a value assigned to a `String` path (`true` becomes "true"; an array or a plain object fails the save).
- `ListingParser` and `ListingFormat` model the message parser (`backend/services/parser-service.js`).
  - Each field pattern is a scanner over the text. Its first matching occurrence wins, as with a JavaScript regular expression.
  - The price and hours figures are cleaned and read, the errors are collected in order, and the keyword check follows.
  - `ParserScenarios` carries the parser test's four cases (`backend/tests/parser.test.js`) over to the model.
- `GeneratorModel`, `UserModel` and `Store` model the two Mongoose models (`backend/models/Generator.js`, `backend/models/User.js`).
  - Documents are datatypes. Schema validation and the pre-save tag hook are written out.
  - `Store.Database` is a class holding both collections as maps. It has the unique message-id index, `findOrCreate` and the document methods.
  - `src/models/Generator.ts` repeats the backend's tag rule (lines 133-158) and age rule (lines 166-176), so both files share one definition.
- `MediaResolver` and `ParserWorker` model the worker class (`MessageParser`):
  - one delivery at a time, with replies handed to the sold workflow;
  - text messages parsed, saved and counted; the worker is a class whose price pattern's currency marker is fixed when it is built, so the worker as written (`MisEncodedRupee`) and as intended (`Rupee`) are both modelled;
  - media collected through a download oracle.
- `SoldWorkflow` models `backend/utils/sold-workflow.js`. `RedisQueue` models the queue class of `backend/config/redis.js`. `Ingestion` models the webhook endpoints of `backend/services/ingestion-service.js`.
- `FileValidation` and `BlobUpload` model the upload helpers (`src/utils/fileUpload.ts`, `src/utils/vercelBlobUpload.ts`). `UploadList` models the upload component's list of files (`src/components/FileUpload.tsx`) as a class.
- `ManualRequest` and `ManualListing` model the administrator's manual-entry endpoint. `AddGenerator` models the form that calls it.
- `ListingQuery` and `AdminListingQuery` model the two listing routes. `BrowsePage` models the browse page's query-string handling, and `ListingView` models the card and the listing page.

Clocks, random suffixes, download results and the endpoint's answer to
the form are parameters of the operations that use them.

## Model

| member | source | states |
|---|---|---|
| JsText.Trim | backend/services/parser-service.js:40 | `trim` leaves an empty string exactly when the text is all white space, never starts or ends with white space, and never lengthens |
| JsText.TrimIdempotent | backend/services/parser-service.js:40 | trimming a trimmed capture changes nothing |
| JsText.ParseIntDigits | backend/services/parser-service.js:55 | `parseInt` of a non-empty run of decimal digits is the number the digits denote |
| JsText.ParseIntNatToString | src/components/GeneratorsPage.tsx:147-151 | `parseInt(String(n))` gives `n` back for every natural number |
| ListingParser.Extract | backend/services/parser-service.js:38-40 | a field's capture is already trimmed, and a price or hours capture is a non-empty run of digits and commas |
| ListingParser.MatchAfterLabel | backend/services/parser-service.js:26-33 | the text after a label yields a trimmed capture, digits and commas only for the figure patterns; the currency marker is compared without case, as the `i` flag does |
| ListingParser.ParseSpec | backend/services/parser-service.js:19-101 | `success` holds exactly when no error is reported; a non-string body gives no data and the single "Parsing error" |
| ListingParser.ExtractFields | backend/services/parser-service.js:37-42 | the extraction loop builds the map of captured fields over the pattern table |
| ListingParser.CheckRequired | backend/services/parser-service.js:45-50 | the required-field loop reports the absent fields of brand, model, price, hours, location in that order |
| ListingParser.CheckPrice | backend/services/parser-service.js:53-61 | the price is cleaned and parsed, with "Invalid price format" for a non-positive or unreadable figure |
| ListingParser.CheckHours | backend/services/parser-service.js:64-72 | the hours are cleaned and parsed, with "Invalid hours format" when no number results |
| ListingParser.ParseGeneratorListing | backend/services/parser-service.js:19-101 | the parser's steps give the same result as the parse function, whose success, errors and figures the lemmas below characterise |
| ListingParser.CapturedField | backend/services/parser-service.js:37-42 | a field is recorded exactly when its pattern matches, with that pattern's capture |
| ListingParser.MissingErrorsCount | backend/services/parser-service.js:45-50 | each absent or empty field of the list is reported exactly once, other fields never |
| ListingParser.MissingFieldReported | backend/services/parser-service.js:45-50 | "Missing required field: f" appears once when f's pattern captures nothing or an empty string, and not at all otherwise |
| ListingParser.MissingFieldCounted | backend/services/parser-service.js:45-78 | the later checks never add a missing-field error |
| ListingParser.FormatErrorsMembers | backend/services/parser-service.js:53-78 | the price, hours and keyword checks add their own error exactly when they fail |
| ListingParser.StripDigitsAndCommas | backend/services/parser-service.js:54 | removing commas, white space and the currency marker from a capture leaves only digits |
| ListingParser.PriceNormalised | backend/services/parser-service.js:53-61 | the stored price is the cleaned figure when positive, otherwise the captured text with "Invalid price format" |
| ListingParser.HoursNormalised | backend/services/parser-service.js:64-72 | the stored hours are the cleaned figure when digits remain, otherwise the text with "Invalid hours format" |
| ListingParser.KeywordCheck | backend/services/parser-service.js:75-78 | "not a generator listing" is reported exactly when neither the text nor the type mentions a generator, and then last |
| ListingParser.SuccessCharacterised | backend/services/parser-service.js:44-81 | the parse succeeds exactly when all required fields are present, price and hours are valid and the keyword check passes |
| ListingParser.TestCopyIsServiceWithoutKeywordCheck | backend/tests/parser.test.js:7-83 | the copy in the test gives the service's data; the service's errors are the copy's plus the keyword error |
| ListingParser.MisEncodedPriceNeedsMarker | backend/services/parser-service.js:29 | the price pattern as written never matches a text without the character 'â' or its upper case 'Â' |
| ListingParser.AsWrittenRejectsOrdinaryText | backend/services/parser-service.js:29 | as written, every message without 'â' or 'Â' fails with "Missing required field: price" |
| ListingParser.AsWrittenAcceptsFoldedMarker | backend/services/parser-service.js:29 | because the pattern ignores case, "Price: Â‚850000" does give the price 850000 |
| JsText.CircumflexClass | backend/services/parser-service.js:29 | under the `i` flag 'â' matches exactly 'â' and 'Â' |
| JsText.CaselessClass | backend/services/parser-service.js:29 | under the `i` flag '‚', '¹' and '₹' match only themselves |
| ListingFormat.LookupAt | backend/tests/parser.test.js:90-97 | on label lines, the first line whose tag ends with the field name and whose rest matches gives the field |
| ListingFormat.LookupNone | backend/tests/parser.test.js:108-110 | without a line tagged with the field name, nothing is captured |
| ListingFormat.ExtractRendered | backend/services/parser-service.js:38 | on a text of `Label: value` lines, the leftmost regular-expression match equals the line lookup |
| ListingFormat.ExtractSkip | backend/services/parser-service.js:38 | positions before the first match do not change the leftmost match |
| ListingFormat.NoOtherHit | backend/services/parser-service.js:26-33 | within one label line, `field:` can match only where the line's tag ends |
| ListingFormat.MatchLine | backend/services/parser-service.js:26 | a plain value on its own line is captured whole by the one-line pattern, trimmed |
| ListingFormat.MatchDigits | backend/services/parser-service.js:29-30 | digits after an optional currency sign are captured by the figure pattern |
| ListingFormat.MatchDigitsReject | backend/services/parser-service.js:29-30 | a value starting with neither a digit, a comma nor the sign is not a figure |
| ListingFormat.MatchBlockLast | backend/services/parser-service.js:33 | a description on the last line is captured whole |
| ListingFormat.MatchPhone | backend/services/parser-service.js:32 | a telephone value is captured up to its line break |
| ParserScenarios.CompleteListing | backend/tests/parser.test.js:7-83 | five captured required fields with clean figures parse, with the cleaned figures as price and hours |
| ParserScenarios.KirloskarParses | backend/tests/parser.test.js:89-105 | Test 1: the complete listing parses to Kirloskar, KG1-62.5AS, 850000 and 12500 |
| ParserScenarios.IncompleteFails | backend/tests/parser.test.js:107-115 | Test 2: type, brand and description alone fail, with model, price and hours reported missing |
| ParserScenarios.WordPriceFails | backend/tests/parser.test.js:117-128 | Test 3: "Price: invalid" fails with an error naming the price, which is the missing-field error |
| ParserScenarios.PriceNotReportedInvalid | backend/services/parser-service.js:29-57 | a price the pattern did not capture is reported missing and never as malformed |
| ParserScenarios.CommaFiguresParse | backend/tests/parser.test.js:130-142 | Test 4: "₹12,50,000" reads as 1250000, "8,500" as 8500, and the parse succeeds |
| ParserScenarios.StripAppend | backend/services/parser-service.js:54 | cleaning a figure works character by character and distributes over concatenation |
| ListingParser.PriceChecked | backend/services/parser-service.js:53-61 | a price made of digits and commas is cleaned to digits alone; it becomes that number when some digit is left and the value is positive, and otherwise stays as text with the invalid-price error |
| ListingParser.HoursChecked | backend/services/parser-service.js:64-72 | an hours figure made of digits and commas becomes the number of its digits, or stays as text with the invalid-hours error when no digit is left |
| ListingParser.ParseCleaned | backend/services/parser-service.js:55-56 | reading a cleaned figure gives nothing when no digit is left and the digits' value otherwise |
| GeneratorModel.StatusName | backend/models/Generator.js:52-57 | each of the five statuses has its own stored name, which the enum check maps back to it |
| GeneratorModel.NewListing | backend/models/Generator.js:5-38 | a new document has trimmed brand, model, location and description, zero counters, no tags and nothing sold |
| GeneratorModel.AddWords | backend/models/Generator.js:139-141 | the loop over the words adds each word longer than two characters that is not yet a tag, keeping the earlier tags in front |
| GeneratorModel.GenerateTags | backend/models/Generator.js:135-158 | the steps give the tag list whose contents and order TagsCharacterised states |
| GeneratorModel.AddTagsMembers | backend/models/Generator.js:139-141 | adding words keeps the earlier tags in front and adds exactly the new words longer than two characters |
| GeneratorModel.AddTagsDistinct | src/models/Generator.ts:135-155 | the tag set never holds a word twice |
| GeneratorModel.TagsCharacterised | backend/models/Generator.js:133-158 | the tags are exactly the distinct words of brand, model and location, lower-cased for ASCII letters, longer than two characters, the brand's first |
| GeneratorModel.WordsShape | backend/models/Generator.js:139 | every word from the split is lower case and holds no white space |
| GeneratorModel.PreSave | backend/models/Generator.js:133-161 | the hook changes only the tags: recomputed on a new document or a changed brand, model or location, kept otherwise |
| GeneratorModel.DiffDays | src/models/Generator.ts:169-170 | the day count is the smallest whole number of days covering the time between the two instants, either way round |
| GeneratorModel.AgeLabelBuckets | backend/models/Generator.js:175-178 | the age label is the day count below a week, whole weeks below thirty days and whole months beyond, with its unit |
| GeneratorModel.MarkedSold | backend/models/Generator.js:182-186 | marking sold sets the status and the sold date, and the sold price only for a truthy price, changing nothing else |
| GeneratorModel.DocumentMethodsKeepValid | backend/models/Generator.js:182-199 | marking sold and counting views or clicks keep a document valid and do not recompute its tags |
| Json.StringCast | backend/models/User.js:12-16 | nullish values leave the path unset; text, numbers and booleans give their text, a truthy value a non-empty one; arrays and objects without `_id` are a cast error |
| UserModel.DefaultDisplayName | backend/models/User.js:75 | the default name is "User " and the last four characters of the identifier |
| UserModel.NewUser | backend/models/User.js:3-44 | a new user has a trimmed identifier, the given name or the default one, is active, has zero counters and both dates now |
| UserModel.NewUserValid | backend/models/User.js:4-16 | a new user passes validation exactly when the trimmed identifier has 10 to 15 digits and a given name fits in 100 characters |
| UserModel.Touched | backend/models/User.js:63-66 | `updateActivity` moves only the last activity date and keeps a valid user valid |
| Store.InsertCharacterised | backend/models/Generator.js:67-72 | a new listing is stored with its tags under its message id exactly when it is valid and the id is new; a duplicate id is refused with nothing changed |
| Store.InsertTwice | backend/models/Generator.js:68-72 | delivering the same listing twice stores it once |
| Store.FindOrCreateCharacterised | backend/models/User.js:69-84 | a successful `findOrCreate` returns the record stored under the trimmed id and changes no other user; an id without 10 to 15 digits gets no record |
| Store.FindOrCreateNames | backend/models/User.js:69-82 | for a new user or one without a name, a truthy name the `String` cast refuses fails the save, and one it accepts is stored as its trimmed text, the save succeeding exactly when the id has the identifier format and the text fits in 100 characters |
| Store.FindOrCreateIdempotent | backend/models/User.js:69-84 | asking again for the same user, at any later time, returns the same record and changes nothing |
| Store.MessageIdQuery | backend/models/Generator.js:202-204 | a query on the message id looks for the text the `String` cast gives (a string as it is, a boolean as its text); an array or an object with a `$` key is a query operator; `null` matches nothing; an object without `$` keys or `_id` is a cast error |
| Store.Database.FindByMessageId | backend/models/Generator.js:202-204 | the listing is found exactly when one is stored under that message id, and it carries that id |
| Store.Database.InsertListing | backend/models/Generator.js:67-72 | a save follows the insertion rule and changes no user |
| Store.Database.MarkAsSold | backend/models/Generator.js:182-187 | the stored listing becomes its sold version and nothing else changes |
| Store.Database.IncrementViews | backend/models/Generator.js:190-193 | the stored listing's views go up by one and nothing else changes |
| Store.Database.IncrementWhatsAppClicks | backend/models/Generator.js:196-199 | the stored listing's clicks go up by one and nothing else changes |
| Store.Database.FindOrCreate | backend/models/User.js:69-84 | the users become what the `findOrCreate` rule gives, and the listings stay as they were |
| Store.Database.CreateUser | backend/models/User.js:73-77 | a new user is stored exactly when it passes validation |
| Store.Database.SaveUser | backend/models/User.js:4-16 | a changed user is stored exactly when it passes validation |
| Store.Database.UpdateActivity | backend/models/User.js:63-66 | the user is stored with only its last activity date moved |
| MediaResolver.Subtype | backend/services/parser-service.js:118 | `split('/')[1]` is missing exactly when the type has no slash, and never holds a slash |
| MediaResolver.Extension | backend/services/parser-service.js:118 | the extension is defined exactly when the MIME type is nullish or a string, and is never empty (`jpg` by default) |
| MediaResolver.ProcessMedia | backend/services/parser-service.js:104-137 | the loop gives the images of the items that resolve, in the order of the items |
| MediaResolver.CollectedIsSubsequence | backend/services/parser-service.js:107-134 | the result is the in-order subsequence of the items with a url, a successful download and a usable MIME type, each giving its own image |
| MediaResolver.KeptIncreasing | backend/services/parser-service.js:107-134 | the kept positions are in range and strictly increasing |
| MediaResolver.KeptMembers | backend/services/parser-service.js:107-134 | a position is kept exactly when its item resolves to an image |
| MediaResolver.ResolveCharacterised | backend/services/parser-service.js:109-133 | an item is skipped exactly when it has no url, its download failed or its type is unusable; a kept one has the downloaded size, the stem and extension and the uploaded url |
| MediaResolver.ExtensionExamples | backend/services/parser-service.js:118 | `image/png` gives `png`, a type without a slash or no type gives `jpg`, a number makes the filename throw |
| ParserWorker.CastNumber | backend/models/Generator.js:17-26 | a parsed figure casts to itself, and a cast never gives a negative number |
| ParserWorker.ErrorTexts | backend/services/parser-service.js:201 | the saved parsing errors are the error texts, one for one |
| ParserWorker.Draft | backend/services/parser-service.js:192-203 | the document built from a parse is `pending_review` exactly when the parse succeeded, `failed_parsing` otherwise; it carries the parse errors, the seller, the images, and as message id the text Mongoose's `String` cast gives `message.id` (a boolean as its text) |
| ParserWorker.MessageId | backend/services/parser-service.js:198 | the message id is the text `message.id` casts to, and there is none exactly when the id is nullish or the cast fails |
| ParserWorker.BooleanMessageIdSaved | backend/services/parser-service.js:192-204 | a text message whose id is the boolean `true` is saved, if at all, under the message id "true" |
| ParserWorker.UncastableMessageIdNoDraft | backend/services/parser-service.js:192-204 | a message id that is an array, or an object without `_id`, fails the cast, so no listing is saved |
| ParserWorker.MessageParser.constructor | backend/services/parser-service.js:14-16 | a new worker is not running and keeps the currency marker it is built with |
| ParserWorker.MessageParser.Start | backend/services/parser-service.js:249-255 | `start` refuses when already running and otherwise sets the running flag |
| ParserWorker.MessageParser.Stop | backend/services/parser-service.js:277-280 | `stop` clears the running flag |
| ParserWorker.MessageParser.HandleReply | backend/services/parser-service.js:221-246 | the collections become what the reply rule gives |
| ParserWorker.MessageParser.ProcessMessage | backend/services/parser-service.js:140-218 | one delivery leaves the collections as the delivery rule, with the worker's currency marker, gives them |
| ParserWorker.MessageParser.BuildDraft | backend/services/parser-service.js:174-203 | the draft is the parse of the body, with the worker's currency marker, and the collected images, as Draft and TextDraftFacts describe it |
| ParserWorker.MessageParser.SaveListing | backend/services/parser-service.js:205-210 | the save and the seller's count follow the save rule |
| ParserWorker.MessageParser.RunOnce | backend/services/parser-service.js:258-273 | one pass of the loop takes the queue's head when there is one and processes it; an empty queue or a falsy message changes nothing |
| ParserWorker.RecordedSenderName | backend/services/parser-service.js:161-164 | the sender's contact name is recorded, for a new sender or one without a name, as the trimmed text it is cast to; a name the cast refuses records nothing |
| ParserWorker.UncastableSenderNameChangesNothing | backend/services/parser-service.js:161-164 | a delivery whose contact name is an array or an object without `_id`, from a sender new or without a name, changes neither collection |
| ParserWorker.BooleanSenderNameStored | backend/services/parser-service.js:161-164 | a contact named by the boolean `true` is stored as a new user named "true" |
| ParserWorker.NoMessagesNoChange | backend/services/parser-service.js:151-154 | a delivery without messages changes nothing |
| ParserWorker.ReplyCreatesNoListing | backend/services/parser-service.js:168-171 | a reply never creates a listing; at most the replied-to listing changes, to its sold form |
| ParserWorker.SaveDraftOutcome | backend/services/parser-service.js:205-210 | a listing is stored, with its tags and under a new message id, only when valid, and only then does the seller's count rise by exactly one |
| ParserWorker.SaveDraftStored | backend/services/parser-service.js:205-210 | a listing the store accepts is stored with its tags and its seller counted |
| ParserWorker.SaveDraftRefused | backend/services/parser-service.js:205-206 | a listing the store refuses changes nothing, the seller's count included |
| ParserWorker.SaveDraftUsers | backend/services/parser-service.js:208-210 | the seller is counted exactly when the insert succeeds |
| ParserWorker.TextDraftFacts | backend/services/parser-service.js:192-203 | for either currency marker, the document of a text message carries the message id, the parse errors, the seller, and the status given by the success of the parse with that marker |
| ParserWorker.AsWrittenWorkerFailsPlainText | backend/services/parser-service.js:29 | the worker as written stores a text without 'â' or 'Â' as `failed_parsing`, with the price reported missing |
| ParserWorker.ReplyToSoldListingCountsAgain | backend/services/parser-service.js:221-246 | a "sold" reply to a listing already sold counts another sale, where the SOLD workflow answers `already_sold` |
| ParserWorker.SaveDraftTwice | backend/models/Generator.js:67-72 | saving the same document again, for any user, is refused by the unique index |
| ParserWorker.TextDraftKey | backend/services/parser-service.js:192-203 | whether a text message yields a document, and its message id, do not depend on the seller or the time |
| ParserWorker.SaveDraftExisting | backend/models/Generator.js:67-72 | a document whose message id is stored already changes nothing |
| ParserWorker.ProcessText | backend/services/parser-service.js:160-213 | for either currency marker, a text message that is not a reply is the save step, on the parse with that marker, after recording the sender |
| ParserWorker.RedeliveryStoresOnce | backend/services/parser-service.js:140-218 | delivering the same text message again after it stored a listing stores nothing more |
| ParserWorker.TextMessageOutcome | backend/services/parser-service.js:174-210 | for either currency marker, a text message adds at most one listing, under its new message id, owned by the sender, with the status and errors of the parse with that marker; the count rises exactly when it is stored |
| SoldWorkflow.MarkedSoldExactly | backend/utils/sold-workflow.js:10-81 | a listing is marked sold exactly when the reply reads "sold" after trim and lower-casing, its context id casts to the key of a stored listing of this seller, and that listing is for sale |
| SoldWorkflow.BooleanContextIdNotFound | backend/utils/sold-workflow.js:24-44 | a "sold" reply whose context id is the boolean `true` is `not_found` exactly when no listing is stored under "true" |
| SoldWorkflow.UncastableContextIdFails | backend/utils/sold-workflow.js:34-110 | a "sold" reply whose context id is an object without `$` keys or `_id` makes the lookup reject and is answered `error` |
| SoldWorkflow.AuthorisationFirst | backend/utils/sold-workflow.js:46-78 | a "sold" reply to another seller's listing is unauthorized whatever that listing's status |
| SoldWorkflow.SecondReplyAlreadySold | backend/utils/sold-workflow.js:58-67 | repeating a successful "sold" reply is answered with `already_sold` |
| SoldWorkflow.HandleSoldReply | backend/utils/sold-workflow.js:10-111 | the action is the checks' decision, the lookup using the context id as Mongoose casts it, and the message is that action's own text, success only for `marked_sold`, which alone marks the listing sold without a price and counts one more sale |
| SoldWorkflow.IgnoredCharacterised | backend/utils/sold-workflow.js:12-32 | a reply is `ignored` exactly when its text is not "sold" or it names no original message, and the message says which |
| SoldWorkflow.ExtractReplyInfo | backend/utils/sold-workflow.js:118-138 | a `null` message is an error, since its `context` cannot be read; otherwise the reply information carries the context id as the original message id and a reply text that is already trimmed |
| SoldWorkflow.ReplyInfoAgrees | backend/utils/sold-workflow.js:118-138 | the extracted reply text lower-cases to what `handleSoldReply` compares with "sold" |
| SoldWorkflow.InitialStats | backend/utils/sold-workflow.js:160-174 | the statistics start with a zero total and a zero count and value for every status |
| SoldWorkflow.SoldWorkflowStats | backend/utils/sold-workflow.js:160-180 | the statistics built in place have as total the sum of the group counts, and each status shows the count and the total price of its group, 0 when no group has it |
| SoldWorkflow.StatsCharacterised | backend/utils/sold-workflow.js:145-188 | the total is the sum of all group counts, and each status shows its own group's count and total price (that of the last group with the status), 0 without one |
| SoldWorkflow.TotalIsSumOfStatuses | backend/utils/sold-workflow.js:149-180 | with one group per status, the total equals the sum of the five per-status counts |
| RedisQueue.RetryStrategy | backend/config/redis.js:7-22 | a reconnect delay is between 100 ms and 3 s |
| RedisQueue.RetryOrder | backend/config/redis.js:7-22 | a refused connection ends retrying first, then an hour of retrying, then the eleventh attempt; later attempts never wait less |
| RedisQueue.Pushed | backend/config/redis.js:58 | `LPUSH` puts the message at the head and keeps the rest |
| RedisQueue.DrainedAppend | backend/config/redis.js:58-72 | popping from the tail delivers a later-pushed part after the earlier one |
| RedisQueue.Fifo | backend/config/redis.js:56-79 | messages come out in the order they went in, after everything already waiting |
| RedisQueue.MessageQueue.constructor | backend/config/redis.js:5-23 | a new queue is empty |
| RedisQueue.MessageQueue.AddToQueue | backend/config/redis.js:56-65 | the message is pushed at the head and the new length returned; an unreachable server is an error with the list untouched |
| RedisQueue.MessageQueue.GetFromQueue | backend/config/redis.js:68-79 | the oldest message is taken from the tail, nothing when empty, an error when unreachable |
| RedisQueue.MessageQueue.GetQueueLength | backend/config/redis.js:82-89 | the length of the list, or an error |
| RedisQueue.MessageQueue.ClearQueue | backend/config/redis.js:92-99 | the list is emptied and 1 returned when there was one to delete, 0 otherwise |
| Ingestion.VerifyWebhook | backend/services/ingestion-service.js:34-46 | the challenge is echoed with 200 exactly when the mode is `subscribe` and the token equals the configured one; otherwise 403 |
| Ingestion.VerifyWithoutConfiguredToken | backend/services/ingestion-service.js:39 | with no token configured, a request without a token is verified and one with any token is not |
| Ingestion.Spread | backend/services/ingestion-service.js:64 | spreading copies an object's fields, or an array's elements under their indices |
| Ingestion.Enriched | backend/services/ingestion-service.js:63-68 | the queued message is an object |
| Ingestion.EnrichedFields | backend/services/ingestion-service.js:63-68 | the queued message keeps every other property and sets `received_at`, `processing_status` "queued" and `service_version` "1.0.0" |
| Ingestion.ReceiveWebhook | backend/services/ingestion-service.js:49-93 | an invalid payload is refused with 400 and nothing queued; a valid one is queued enriched, and the answer is 200 even when queueing fails |
| Ingestion.QueueStatus | backend/services/ingestion-service.js:96-111 | the answer reports the queue length as `pending_messages`, or 500 |
| Ingestion.ClearQueue | backend/services/ingestion-service.js:114-136 | clearing is refused with 403 in production; otherwise the queue is emptied, or 500 when unreachable |
| FileValidation.AllowedExtensions | src/utils/fileUpload.ts:19-24 | a MIME type has extensions exactly when it is one of the four supported image types |
| FileValidation.LastIndexOf | src/utils/fileUpload.ts:53 | the position of the last dot, or -1 when there is none |
| FileValidation.ValidateFile | src/utils/fileUpload.ts:34-63 | a file is valid exactly when its type is supported, its size is at most 4.5 MiB and its lower-cased extension is listed for its type; the type is checked first, then the size |
| FileValidation.FirstFailureCharacterised | src/utils/fileUpload.ts:86-94 | a batch within both limits is valid exactly when every file is, and otherwise gets the error of the first file that is not |
| FileValidation.FirstFailureValid | src/utils/fileUpload.ts:86-94 | the file loop finds no failure exactly when every file is valid |
| FileValidation.FirstFailureAt | src/utils/fileUpload.ts:86-94 | a failure is the result of the first failing file, every earlier one being valid |
| FileValidation.ValidateFiles | src/utils/fileUpload.ts:68-95 | the count is checked before the total size, then the files in order, and the first failure found is the one reported |
| FileValidation.UpperCaseExtension | src/utils/fileUpload.ts:53 | "photo.JPG" passes as a JPEG image |
| FileValidation.DotlessName | src/utils/fileUpload.ts:53 | a file named just "jpg" passes as a JPEG image |
| FileValidation.WrongExtension | src/utils/fileUpload.ts:55-60 | "photo.png" declared as a JPEG image is refused for its extension |
| FileValidation.SizeLimitInclusive | src/utils/fileUpload.ts:44 | a file of exactly 4.5 MiB is accepted and one byte more is refused for its size |
| FileValidation.TypeCheckedFirst | src/utils/fileUpload.ts:36-41 | an unsupported type is refused for its type before its size is looked at |
| FileValidation.ValidNameEndsWithExtension | src/utils/fileUpload.ts:52-60 | a valid file's name ends, without regard to case, with its extension |
| FileValidation.TotalSizeAppend | src/utils/fileUpload.ts:78 | the total size of two batches is the sum of their totals |
| BlobUpload.StripExtension | src/utils/vercelBlobUpload.ts:171 | the base name is the name itself or the part before a dot that ends it |
| BlobUpload.Sanitise | src/utils/vercelBlobUpload.ts:171 | every character outside `[A-Za-z0-9-_]` becomes `_` and the others stay, the length kept |
| BlobUpload.UniqueFilenameTimestamp | src/utils/vercelBlobUpload.ts:167-174 | the unique name reads back, with `parseInt`, as the timestamp it starts with |
| BlobUpload.SanitisedBaseSafe | src/utils/vercelBlobUpload.ts:171 | every character of the cleaned base name is one the cleaner keeps |
| BlobUpload.UniqueFilenameExtension | src/utils/vercelBlobUpload.ts:170-173 | the unique name ends with a dot and the text after the original's last dot |
| BlobUpload.AfterLastHasNoSep | src/utils/vercelBlobUpload.ts:170 | the extension holds no dot of its own |
| BlobUpload.BaseAndExtensionRejoin | src/utils/vercelBlobUpload.ts:170-171 | for a name with an extension, base, dot and extension give the name back |
| BlobUpload.DotlessNameRepeated | src/utils/vercelBlobUpload.ts:170-173 | a name without a dot is both the base and the extension |
| BlobUpload.ValidateFileForBlob | src/utils/vercelBlobUpload.ts:181-201 | a file is accepted exactly when at most 4.5 MiB and of one of the four image types, the size checked first |
| BlobUpload.BrowserCheckStricter | src/utils/vercelBlobUpload.ts:181-201 | a file the browser check accepts is accepted here too; a file both too large and of the wrong type gets a different error from each |
| BlobUpload.BlobPathFolderAndMonth | src/utils/vercelBlobUpload.ts:33 | the path lies in `generators/` and its month reads back as 1 to 12 |
| BlobUpload.BlobPathLastSegment | src/utils/vercelBlobUpload.ts:86 | a file name without `/` is the path's last segment |
| BlobUpload.UploadResult | src/utils/vercelBlobUpload.ts:45-65 | the result keeps type and size; an error is set exactly when the store threw, and then url and path are empty |
| BlobUpload.UploadFile | src/utils/vercelBlobUpload.ts:24-67 | the given name when truthy, else a unique one, under the dated path; the size is the file's, and a failure has no url |
| BlobUpload.UploadBuffer | src/utils/vercelBlobUpload.ts:76-121 | always a unique name under the dated path, the given type, the buffer's length as size, and no url on failure |
| UploadList.Ids | src/components/FileUpload.tsx:92-139 | the ids of the entries, one per entry in list order |
| UploadList.NewEntries | src/components/FileUpload.tsx:70-76 | each accepted file becomes an entry with its id and preview, pending at progress 0, with no url or error |
| UploadList.WithProgress | src/components/FileUpload.tsx:125-131 | only the entry with the id gets the progress and status uploading; every other entry is unchanged |
| UploadList.WithStatus | src/components/FileUpload.tsx:133-139 | only the entry with the id gets the status, url and error; every other entry is unchanged |
| UploadList.RemovedCharacterised | src/components/FileUpload.tsx:92-100 | removing by id keeps exactly the entries with another id, and a list without the id is returned as it was |
| UploadList.UpdatesKeepIds | src/components/FileUpload.tsx:125-139 | progress and status updates keep every entry in its place |
| UploadList.StatusUpdatesCollapse | src/components/FileUpload.tsx:133-139 | a later status update of the same entry wins over an earlier one |
| UploadList.DisplayedSizeAppend | src/components/FileUpload.tsx:303 | the displayed total of two lists put together is the sum of their totals |
| UploadList.NewEntriesSize | src/components/FileUpload.tsx:63-78 | the new entries add up to the size of the batch that was validated |
| UploadList.SettledAll | src/components/FileUpload.tsx:142-161 | settling a batch keeps the list's length |
| UploadList.SettledAllKeepsOthers | src/components/FileUpload.tsx:142-161 | settling keeps the ids and touches no entry outside the batch |
| UploadList.SettledAllOutcome | src/components/FileUpload.tsx:142-161 | with distinct ids, each file of the batch ends as its own upload ended: success with the url or an error with the message |
| UploadList.FileUpload.constructor | src/components/FileUpload.tsx:32-39 | the list starts with the existing files and no error |
| UploadList.FileUpload.OnDrop | src/components/FileUpload.tsx:53-82 | too many files or an invalid batch set an error and leave the list; otherwise the new pending entries are appended after the existing ones |
| UploadList.FileUpload.RemoveFile | src/components/FileUpload.tsx:92-100 | the list loses the entries with the id and nothing else |
| UploadList.FileUpload.UpdateFileProgress | src/components/FileUpload.tsx:125-131 | the list becomes the progress update of the matching entry |
| UploadList.FileUpload.UpdateFileStatus | src/components/FileUpload.tsx:133-139 | the list becomes the status update of the matching entry |
| UploadList.FileUpload.RetryUpload | src/components/FileUpload.tsx:102-123 | an unknown id changes nothing; otherwise the entry restarts at progress 0 and records how the new upload ended |
| UploadList.FileUpload.UploadNewFiles | src/components/FileUpload.tsx:142-161 | the loop settles the new files one after the other, each taking its given outcome, the other entries left alone |
| UploadList.DropRaisesTotal | src/components/FileUpload.tsx:78 | an accepted drop raises the displayed total by exactly the batch's size |
| ManualRequest.Precheck | src/app/api/admin/generators/manual/route.ts:25-95 | a non-administrator gets 401 "Unauthorized access"; whatever passes is the destructured body's fields, with a positive numeric price, non-negative numeric hours and a well-formed seller id |
| ManualRequest.PrecheckCharacterised | src/app/api/admin/generators/manual/route.ts:54-95 | the checks pass exactly for an administrator's non-null body whose required fields are truthy (hours only present), whose price is a positive number, whose hours are a non-negative number and whose seller id is 10 to 15 digits |
| ManualRequest.ZeroPriceReadsAsMissing | src/app/api/admin/generators/manual/route.ts:55-63 | a price of 0 is refused with 400 "Missing required fields", not as a bad price |
| ManualRequest.ZeroHoursAccepted | src/app/api/admin/generators/manual/route.ts:55-84 | 0 hours run passes every check when the other fields are good |
| ManualRequest.PrecheckErrorsOrdered | src/app/api/admin/generators/manual/route.ts:66-84 | with the required fields present, a non-numeric price gets the price error, and a good price with negative hours gets the hours error |
| ManualRequest.SellerKey | src/app/api/admin/generators/manual/route.ts:87-98 | the seller id that passed the checks is a well-formed WhatsApp id with no surrounding blanks |
| ManualRequest.NewSeller | src/app/api/admin/generators/manual/route.ts:100-106 | a seller created for the request is a valid, active user with the request's id, the seller role and no listings; a truthy name sent is saved as the trimmed text Mongoose casts it to (a boolean as its text) and the seller is created exactly when that fits in 100 characters, while a name the cast refuses fails the save; without a name, the seller is created exactly when the id is text |
| ManualRequest.Backfilled | src/app/api/admin/generators/manual/route.ts:107-110 | giving a stored seller the name sent changes its display name only, to the trimmed text Mongoose casts the name to, exactly when the result is valid; a name the cast refuses fails the save |
| ManualRequest.NormaliseImage | src/app/api/admin/generators/manual/route.ts:113-129 | a string becomes an image at that url named manual_upload_ with the clock and the index, size 0 and type image/jpeg; anything neither a string nor an object is dropped; every kept image has a filename, size and type |
| ManualRequest.NormaliseAppend | src/app/api/admin/generators/manual/route.ts:113-130 | normalising two runs of elements gives the first run's images followed by the second's, whose indexes continue from the first |
| ManualRequest.NormaliseAllKept | src/app/api/admin/generators/manual/route.ts:113-130 | when every element normalises to an image, the result is exactly those images in order, nothing filtered out |
| ManualRequest.NormaliseStrings | src/app/api/admin/generators/manual/route.ts:113-120 | a list of url strings gives one image per string, in order, each named after the clock and its own index |
| ManualRequest.ManualMessageId | src/app/api/admin/generators/manual/route.ts:144 | the message id of a manual listing starts with manual_ and is longer than that prefix |
| ManualListing.SellerStepStoresSeller | src/app/api/admin/generators/manual/route.ts:97-110 | the seller used is stored under its own id in the users, which stay valid |
| ManualListing.StoreUser | backend/models/User.js:4-11 | storing a valid user under its own id keeps the users valid and makes that user the one found under the id |
| ManualListing.SellerStepKeepsOthers | src/app/api/admin/generators/manual/route.ts:97-110 | the seller step adds at most the seller's id and leaves every other user as it was |
| ManualListing.SellerStepShape | src/app/api/admin/generators/manual/route.ts:97-110 | the users are either untouched, the seller already among them, or have the seller stored under its id |
| ManualListing.SellerStepKeepsCount | src/app/api/admin/generators/manual/route.ts:97-110 | the seller's listing count is the stored one, or 0 for a seller created now |
| ManualListing.NewSellerDefaultName | src/app/api/admin/generators/manual/route.ts:101-105 | a new seller sent without a name is created and named "Seller " and the last four characters of the id |
| ManualListing.SellerNameCast | src/app/api/admin/generators/manual/route.ts:100-110 | for a new seller or one without a name, a truthy name sent is stored as the trimmed text it is cast to when that fits in 100 characters, and a name the cast refuses makes the step fail |
| ManualListing.BooleanSellerNameSaved | src/app/api/admin/generators/manual/route.ts:100-110 | a seller name sent as the boolean `true` is saved as "true" |
| ManualListing.UncastableSellerNameFails | src/app/api/admin/generators/manual/route.ts:97-110 | a request whose seller name is an array or an object without `_id`, for a new seller or one without a name, gets the 500 reply and changes nothing |
| ManualListing.SellerStepKeepsNamed | src/app/api/admin/generators/manual/route.ts:98-110 | a stored seller that already has a name, or for whom no name is sent, is used unchanged and no user is saved |
| ManualListing.ListingStepStores | src/app/api/admin/generators/manual/route.ts:112-157 | a failure is a 500 with nothing stored; a created listing is stored under a message id that was free and the seller is stored with one more listing |
| ManualListing.PublishStores | src/app/api/admin/generators/manual/route.ts:153-157 | publishing keeps both collections valid and stores the document and the counted seller together, or nothing |
| ManualListing.ListingStepCreated | src/app/api/admin/generators/manual/route.ts:133-151 | a created listing is for sale, has a manual_ message id and no parsing errors, trimmed brand and model, and names the seller |
| ManualListing.OutcomeKeepsStores | src/app/api/admin/generators/manual/route.ts:25-181 | the collections stay valid; a refused request stores no listing, and one refused by the checks changes no user either |
| ManualListing.OutcomeCreatedListing | src/app/api/admin/generators/manual/route.ts:133-153 | a created listing is stored under a fresh manual_ message id, for sale, with no parsing errors and trimmed brand and model |
| ManualListing.OutcomeCreatedSeller | src/app/api/admin/generators/manual/route.ts:153-157 | the seller of a created listing is stored with one more listing than before the request, a new seller counting from 0 |
| ManualListing.CreateManualListing | src/app/api/admin/generators/manual/route.ts:25-181 | the reply, the listings and the users after the request are those of the request's outcome on the state before it, and the database stays valid |
| ManualListing.SaveSeller | src/app/api/admin/generators/manual/route.ts:97-110 | the seller as the seller step gives it and the users it leaves, or no seller with the users untouched; listings unchanged |
| ManualListing.CreateSeller | src/app/api/admin/generators/manual/route.ts:100-106 | a seller created for an unknown id is added under that id, the rest unchanged |
| ManualListing.BackfillSeller | src/app/api/admin/generators/manual/route.ts:107-110 | a stored seller without a name is saved with the name sent, the rest unchanged |
| ManualListing.SaveManualListing | src/app/api/admin/generators/manual/route.ts:112-157 | the reply and the state after the listing step are those the listing step computes from the state before it |
| ManualListing.PublishListing | src/app/api/admin/generators/manual/route.ts:153-157 | inserting the document and counting it for the seller leaves the state that publishing computes |
| AddGenerator.WithField | src/app/admin/add-generator/page.tsx:44-50 | typing into a text input never touches the image list |
| AddGenerator.WithFieldOnlyThat | src/app/admin/add-generator/page.tsx:44-50 | typing into one input sets that field to the value typed and leaves every other field as it was |
| AddGenerator.NonBlank | src/app/admin/add-generator/page.tsx:57-61 | the filtered url list is never longer than the url fields |
| AddGenerator.NonBlankCharacterised | src/app/admin/add-generator/page.tsx:57-61 | a url is among the images exactly when it is one of the url fields and does not trim to nothing |
| AddGenerator.NonBlankAppend | src/app/admin/add-generator/page.tsx:64-74 | filtering two runs of url fields gives the first run's images followed by the second's |
| AddGenerator.RemoveAt | src/app/admin/add-generator/page.tsx:68-69 | removing an index in range drops that entry and shifts the later ones down; an index out of range leaves the fields as they are |
| AddGenerator.RemoveAtImages | src/app/admin/add-generator/page.tsx:68-74 | removing a url field removes its entry from the images when it was not blank, and leaves the other images in order |
| AddGenerator.NonBlankCons | src/app/admin/add-generator/page.tsx:60 | a url field in front contributes itself to the images exactly when it does not trim to nothing |
| AddGenerator.CheckFormCharacterised | src/app/admin/add-generator/page.tsx:84-105 | the form passes exactly when every required field is typed in, the price reads as a positive number, the hours as a non-negative one and the seller id has 10 to 15 digits; the numbers passed on are those read |
| AddGenerator.CheckFormOrder | src/app/admin/add-generator/page.tsx:84-96 | an empty brand is reported as a missing field before anything else, and an unreadable price is reported before the hours are looked at |
| JsText.ParseIntLeadingDigits | src/app/admin/add-generator/page.tsx:91 | `parseInt` of a decimal numeral followed by nothing or by a character that is neither a digit nor an `x` reads the numeral and stops there |
| AddGenerator.PriceReadsLeadingDigits | src/app/admin/add-generator/page.tsx:91 | a price typed as "12abc" is read as 12, since reading stops at the first non-digit |
| AddGenerator.ImageObjects | src/app/admin/add-generator/page.tsx:121 | the body holds one url object per image, in order, each url trimmed |
| AddGenerator.RequestBodyFields | src/app/admin/add-generator/page.tsx:107-122 | the endpoint reads back from the body the trimmed texts, the numbers read, the display name only when it is not blank, and the image objects |
| AddGenerator.FormPassesServerChecks | src/app/admin/add-generator/page.tsx:84-122 | a form that passes the browser checks, and whose texts are not just spaces, passes the manual endpoint's checks too |
| AddGenerator.SubmittedFieldsPass | src/app/admin/add-generator/page.tsx:112-122 | the fields a form sends with good numbers, a good id and non-blank texts meet every condition the endpoint checks |
| AddGenerator.BlankBrandRefusedByServer | src/app/admin/add-generator/page.tsx:85-113 | a brand of spaces alone passes the browser check but the endpoint refuses the body as missing required fields |
| AddGenerator.SubmittedImagesKept | src/app/admin/add-generator/page.tsx:121 | every submitted url becomes an image of the listing at the trimmed url, in order, with a generated file name, size 0 and type image/jpeg |
| AddGenerator.UrlObjectImages | src/app/admin/add-generator/page.tsx:121 | each url object the form sends normalises to an image at its url with the endpoint's defaults |
| AddGenerator.UrlObjectImage | src/app/admin/add-generator/page.tsx:121 | one url object with a non-blank url normalises to an image at that url with the endpoint's defaults |
| AddGenerator.AddGeneratorForm.constructor | src/app/admin/add-generator/page.tsx:8-25 | the form starts empty, with one empty url field, no messages and not loading |
| AddGenerator.AddGeneratorForm.HandleInputChange | src/app/admin/add-generator/page.tsx:44-50 | the named field takes the value; urls, messages and loading are unchanged, and the images stay the non-blank url fields |
| AddGenerator.AddGeneratorForm.HandleImageUrlChange | src/app/admin/add-generator/page.tsx:52-62 | the url field at the index takes the value and the images become the non-blank url fields |
| AddGenerator.AddGeneratorForm.AddImageUrlField | src/app/admin/add-generator/page.tsx:64-66 | one empty url field is appended and the images are unchanged |
| AddGenerator.AddGeneratorForm.RemoveImageUrlField | src/app/admin/add-generator/page.tsx:68-75 | the url field at the index is removed and the images become the remaining non-blank url fields |
| AddGenerator.AddGeneratorForm.HandleSubmit | src/app/admin/add-generator/page.tsx:77-155 | a failed check shows its message and sends nothing; otherwise the trimmed body is sent; a created listing shows the success message and empties the form, while a refusal or an exception shows its message and keeps the form; loading is off afterwards |
| ListingQuery.ParamOr | src/app/api/generators/route.ts:12-22 | a parameter's value when it is present and non-empty, otherwise the default |
| ListingQuery.BelowQuotient | src/app/api/generators/route.ts:98-99 | a page lies below the rounded-down page count exactly when the pages up to the next one fit in the count |
| ListingQuery.PaginationCharacterised | src/app/api/generators/route.ts:84-100 | with a positive limit the page count is the least number of pages holding every listing, there is a next page exactly when listings lie beyond this page, a previous one exactly after the first page, and the skip passes over the earlier pages |
| ListingQuery.ZeroLimitAlwaysHasNext | src/app/api/generators/route.ts:98-99 | a limit of 0 with any listing makes the page count infinite, so every page claims a next page |
| ListingQuery.UnreadablePageHasNoNeighbours | src/app/api/generators/route.ts:99-100 | a page parameter that does not read as a number has neither a next nor a previous page |
| ListingQuery.RangeOf | src/app/api/generators/route.ts:39-51 | a range is added exactly when either bound parameter is non-empty, with a lower bound exactly when the minimum is given and an upper bound exactly when the maximum is |
| ListingQuery.PublicFilterShape | src/app/api/generators/route.ts:24-56 | the public filter always asks for listings for sale, and has a brand, location or text search exactly when that parameter is non-empty, holding its value |
| ListingQuery.PublicFilterForSale | src/app/api/generators/route.ts:24-27 | only listings for sale match the public filter, and with no parameters every listing for sale does |
| ListingQuery.MinPriceBound | src/app/api/generators/route.ts:39-44 | a minimum price admits exactly the listings for sale priced at or above it |
| ListingQuery.SortOf | src/app/api/generators/route.ts:58-81 | every sort is ascending or descending on one field |
| ListingQuery.SortDefaults | src/app/api/generators/route.ts:21-22 | with no parameters the newest listings come first; an unknown sort name falls back to creation date in the order the sort order names, descending unless it is asc |
| ListingQuery.NamedSortsIgnoreOrder | src/app/api/generators/route.ts:60-78 | the six named sorts do not depend on the sort order parameter |
| ListingQuery.PublicPaginationDefaults | src/app/api/generators/route.ts:12-13 | with no parameters the first page of 12 is served, with no previous page and a next page exactly when more than 12 listings match |
| ListingQuery.LexLeqTotal | src/app/api/generators/route.ts:144 | any two brands are ordered one way or the other by the default sort order |
| ListingQuery.LexLeqTransitive | src/app/api/generators/route.ts:144 | the default sort order is transitive |
| ListingQuery.LexLeqReflexive | src/app/api/generators/route.ts:144 | every brand is ordered before or equal to itself |
| ListingQuery.Insert | src/app/api/generators/route.ts:144 | inserting a brand adds exactly that brand to the list |
| ListingQuery.SortBrands | src/app/api/generators/route.ts:144 | sorting keeps the same brands, each as often as before |
| ListingQuery.InsertSorted | src/app/api/generators/route.ts:144 | inserting into a sorted brand list keeps it sorted |
| ListingQuery.SortBrandsCharacterised | src/app/api/generators/route.ts:103-144 | the brand list comes back sorted and a permutation of the distinct brands |
| ListingQuery.SortedAllPairs | src/app/api/generators/route.ts:144 | in the sorted brand list every brand precedes all later ones |
| ListingQuery.RangeOrZero | src/app/api/generators/route.ts:145-146 | the aggregate's range record, or zeros when nothing is for sale |
| AdminListingQuery.AdminFilterDefaults | src/app/api/admin/generators/route.ts:14-23 | with no parameters the admin sees the listings pending review; with status all, every listing; with an unknown status name, none |
| AdminListingQuery.AdminSearchCharacterised | src/app/api/admin/generators/route.ts:20-33 | a search matches a listing exactly when the status filter admits it and the search text is found, ignoring case, in its brand, model, location or description |
| AdminListingQuery.AdminPaginationDefaults | src/app/api/admin/generators/route.ts:12-13 | with no parameters the first page of 10 is served, with a next page exactly when more than 10 listings match |
| AdminListingQuery.ZeroStats | src/app/api/admin/generators/route.ts:65-71 | the initial counts hold exactly the five status names, each at 0 |
| AdminListingQuery.StatusNames | src/app/api/admin/generators/route.ts:65-71 | the counted names are exactly the names of the five statuses |
| AdminListingQuery.StatusStats | src/app/api/admin/generators/route.ts:65-77 | the counts built in place are the counts after applying the records in order |
| AdminListingQuery.StatsAfterCharacterised | src/app/api/admin/generators/route.ts:65-77 | the result has exactly the five status names, whatever the records say; each holds the count of the last record for it, or 0 without one |
| AdminListingQuery.StatsCountListings | src/app/api/admin/generators/route.ts:56-77 | over the records of a grouping by status, the dashboard shows each status's number of listings |
| AdminListingQuery.LastCountUnique | src/app/api/admin/generators/route.ts:73-77 | when record names are distinct, a name's count is that of its one record |
| AdminListingQuery.LastCountAbsent | src/app/api/admin/generators/route.ts:73-77 | a name no record has keeps the count 0 |
| BrowsePage.Delete | src/components/GeneratorsPage.tsx:128 | deleting a key never lengthens the query string |
| BrowsePage.SetFromGet | src/components/GeneratorsPage.tsx:126 | setting a key, part-way through, makes later reads of it give the value (or nothing when an earlier entry already took it) and leaves other keys alone |
| BrowsePage.SetCharacterised | src/components/GeneratorsPage.tsx:126 | after a set the key reads back as the value and occurs once; every other key reads as before |
| BrowsePage.SetFromCount | src/components/GeneratorsPage.tsx:126 | setting a key leaves exactly one entry with that key |
| BrowsePage.DeleteCharacterised | src/components/GeneratorsPage.tsx:128 | after a delete the key is gone and every other key reads as before |
| BrowsePage.UpdateFilters | src/components/GeneratorsPage.tsx:121-136 | the query string built in place is the one the filter update computes |
| BrowsePage.AppliedCharacterised | src/components/GeneratorsPage.tsx:124-130 | after the new values are applied, a key reads as the last non-empty value given for it, is gone when the last value given is empty, and otherwise reads as before |
| BrowsePage.UpdateFiltersCharacterised | src/components/GeneratorsPage.tsx:121-136 | after a filter update the page is "1", a key given a non-empty value reads as it, a key given an empty one is gone, and every other key reads as before |
| BrowsePage.Or | src/components/GeneratorsPage.tsx:80-90 | the parameter's value when it is present and non-empty, otherwise the default |
| BrowsePage.PageChangeCharacterised | src/components/GeneratorsPage.tsx:147-151 | a page change moves the page the browse page reads to the new number and leaves every other filter as it was |
| BrowsePage.UpdateFiltersFirstPage | src/components/GeneratorsPage.tsx:132-133 | after a filter update the browse page reads page 1 |
| BrowsePage.NoParamsDefaults | src/components/GeneratorsPage.tsx:80-90 | with no query string the browse page reads no filters, newest first, page 1 |
| BrowsePage.ActiveFiltersCountsPage | src/components/GeneratorsPage.tsx:166-168 | with no query string the count as written is 1, while the intended count is 0 |
| BrowsePage.ActiveFiltersCountCharacterised | src/components/GeneratorsPage.tsx:166-168 | the intended count is 0 exactly when no text filter is set (apart from newest and 1) and the page is the first; the count as written is one more on the first page and equal otherwise |
| BrowsePage.UpdateFiltersCount | src/components/GeneratorsPage.tsx:121-168 | after any filter update the intended count is the number of text filters set |
| BrowsePage.Window | src/components/GeneratorsPage.tsx:329-358 | one item per page, each a button, an ellipsis or nothing as the page list decides |
| BrowsePage.WindowCharacterised | src/components/GeneratorsPage.tsx:329-358 | the first, the last and the current page have buttons, and every page left out lies beyond an ellipsis at two below or two above the current page |
| BrowsePage.WindowAtMostSeven | src/components/GeneratorsPage.tsx:329-358 | however many pages there are, the list shows at most seven items |
| BrowsePage.SubsetSize | src/components/GeneratorsPage.tsx:329-358 | a subset of the seven pages around the current one has at most seven members |
| ListingView.Truncate | src/components/GeneratorCard.tsx:47-50 | the text when it fits, else its first characters up to the limit followed by "..." |
| ListingView.CardDescription | src/components/GeneratorCard.tsx:47-50 | the card's description never exceeds 103 characters, begins with as much of the text as fits, and equals the text exactly when it fits or is 103 characters ending in "..." |
| ListingView.CardDateOneDay | src/components/GeneratorCard.tsx:35-45 | the card reads "1 day ago" exactly when the two times differ by at most a day but are not equal, and "0 days ago" for the same instant |
| ListingView.SellerLabel | src/components/GeneratorCard.tsx:126 | the display name when it is non-empty, else "Seller " followed by the last four characters of the id |
| ListingView.UnnamedSellerLabel | src/components/GeneratorDetailPage.tsx:308 | a missing and an empty name give the same eleven-character label ending in the id's last four characters, and that label shown as a name is unchanged |
| ListingView.ViewsBadge | src/components/GeneratorCard.tsx:84 | the views badge shows exactly for a listing seen at least once, never for an unknown count |
| ListingView.CarouselCharacterised | src/components/GeneratorDetailPage.tsx:102-112 | with at least one image both moves keep the index on an image, each undoes the other, and they step forward and back round the images |
| ListingView.NextCycles | src/components/GeneratorDetailPage.tsx:102-106 | n presses of next, up to the number of images, move n images on, round past the last |
| ListingView.FullCycle | src/components/GeneratorDetailPage.tsx:102-106 | pressing next once per image comes back to the image shown first |
| ListingView.FirstOthers | src/components/GeneratorDetailPage.tsx:335 | at most three of the seller's other listings are shown, the first ones, all of them when there are three or fewer |

## Left out

- Logging, HTTP framing (Express, Next.js routing, `NextResponse` bodies beyond status and message), process signals and server start-up (`startServer`, `startParserService`, `connectRedis`, `connectDB`) are not modelled: they carry no logic of their own.
- ParserWorker.MessageParser.RunOnce: models one pass of the worker loop. It does not model the endless `while` loop, its five-second pause after an error or the blocking pop's timeout, because these are timing rather than logic.
- MongoDB is two maps keyed by message id and by WhatsApp id. Query execution (`find`, `sort`, `skip`, `limit`, `populate`, `lean`, `distinct`, `aggregate`) is not modelled. What is modelled is the filter, sort, pagination and status-count objects the routes build, and the `forEach` over the aggregate's records.
- ListingQuery.PublicFilterShape: a `$regex` pattern is read as literal text to find without regard to case, not as a regular expression. The `$text` search needs MongoDB's text index and is kept only as the search string.
- ListingQuery.RangeOf: a bound that `parseInt` cannot read (`NaN`) is taken to match no listing. The source's outcome differs: Mongoose most likely refuses to cast `NaN` to a number, and the route answers 500.
- GeneratorModel.TagsCharacterised: the tags are lower-cased for ASCII letters only. JavaScript's `toLowerCase` folds all of Unicode, so "MÜNCHEN" gives the tag "münchen" in the source and "mÜnchen" here. GeneratorModel.GenerateTags and GeneratorModel.WordsShape share this.
- AdminListingQuery.AdminSearchCharacterised: the search is read as literal text and compared ignoring the case of ASCII letters only. MongoDB reads it as a regular expression, and its `i` option folds the case of all of Unicode.
- JsText.ParseIntDigits: integers are unbounded. JavaScript's `parseInt` and JSON numbers are doubles, which lose precision above 2^53. The model reads such figures exactly.
- ListingParser.CheckPrice: a price figure above 2^53 is kept exactly, where JavaScript's `parseInt` rounds it. ListingParser.CheckHours and ListingParser.PriceChecked share this.
- ManualRequest.Precheck: the manual price and hours are JSON integers, exact at any size. Fractional numbers, and the rounding of doubles above 2^53, are not modelled.
- The labels of the parser's patterns, its keyword check and the sold reply's "sold" are compared by folding ASCII letters only. For these texts that is exact: with the `i` flag and no `u` flag, no character outside ASCII matches an ASCII letter, and no character outside ASCII lower-cases to one of their letters.
- Seller identity is the user's WhatsApp id (unique and never changed) rather than the MongoDB `ObjectId` in `seller_id`. Array-valued ids in the manual body are not modelled.
- Floating point is not modelled: `formatFileSize`, `toLocaleString` prices and hours, the average in the price and hours statistics, and the percentage progress of an upload. Sizes and limits are integers of bytes, and the 4.5 MB limit is written out exactly as 4718592 bytes.
- String lengths and the brand sort use Dafny characters, not UTF-16 code units, so the order and lengths differ from JavaScript only for characters outside the Basic Multilingual Plane.
- Media download (`axios`) and the S3 upload in `processMedia` are an oracle giving each item's outcome. The S3 helper `backend/utils/s3-upload.js` is not part of this model.
- `uploadFile` and `uploadFiles` in `src/utils/fileUpload.ts` send an `XMLHttpRequest` and report progress events. They are not modelled. The upload component's list takes each upload's outcome as a parameter instead.
- `createFilePreview`, `generateFileId` and `cleanupPreviews` are not modelled, because they use the browser's object-URL and random-number APIs. File ids are given.
- `deleteFromVercelBlob`, `listVercelBlobFiles` and `getBlobFileInfo` are not modelled: they are calls into the Blob SDK and the URL parser. `put` itself is an abstract call whose success or error is given.
- Concurrency is not modelled: `Promise.all` and parallel uploads are taken one after another, in order.
- ManualRequest.NormaliseImage: `Date.now()` is read once per request, not once per image. A truthy `url` that is neither text nor a number (`true`, an object) drops the image, where the source hands it to Mongoose, which casts it or refuses the request with a 500. A `size` given as numeric text is stored as 0, where Mongoose would cast it to its number. A truthy `filename` or `mimetype` that is neither text nor a number is replaced by the default, where Mongoose would cast or refuse it.
- `verifyAdmin` (JWT verification) is not modelled. The endpoint receives whether the caller is an administrator as a boolean.
- The site's own user schema `src/models/User.ts` is taken to be the backend's `backend/models/User.js`, which the manual endpoint's users are validated against.
- AddGenerator.AddGeneratorForm.HandleImageUrlChange: requires an index within the url fields. The page only ever calls it with one, and JavaScript's growing of the array on a larger index is left out.
- The page's `checkAuth` redirect, `router.push`, the two-second `setTimeout` before leaving the form, and a non-string `data.error` are not modelled.
- AdminListingQuery.StatsAfterCharacterised: a record named after an inherited object property (such as `toString`) is treated as unknown and ignored. JavaScript's `in` would write it onto the object.
- BrowsePage.WindowCharacterised: the page window is stated for a whole number of pages. A `totalPages` of `Infinity` or `NaN` from a limit of 0 is not carried into the page list.
- `URLSearchParams` serialisation and percent-encoding are not modelled. The query string is its list of key and value pairs.
- `fetchGenerators`, `handleWhatsAppClick`, `handleShare`, the listing page's `formatDate` and `formatPrice`, and `getRecentSoldActivities` are not modelled: they are network calls, browser APIs, locale formatting or a plain query.
- ListingParser.ParseSpec: every body that is not a string records the TypeError text of a non-nullish one ("messageText.match is not a function"); for a missing or `null` body, V8's text reads "Cannot read properties of undefined (reading 'match')" or "… of null …" instead. Only the error text differs.
- SoldWorkflow.MarkedSoldExactly: a context id that Mongoose runs as a query operator (an object with a `$` key such as `{"$ne": null}`, or an array, which becomes `$in`) is taken to find no listing. The source runs the query, which can find a stored listing and, when it is the sender's and for sale, mark it sold. Which listing `findOne` returns depends on the database's natural order, which the model does not have.
- SoldWorkflow.HandleSoldReply: an operator context id, as above, is answered `not_found` with nothing changed; the source may find a listing and go on with the ownership and status checks.
- ParserWorker.MessageParser.HandleReply: an operator context id, as above, changes nothing; the source may mark the listing it finds sold when it is the sender's.
- ParserWorker.MessageParser.ProcessMessage: inherits the operator-query gap of `HandleReply` for replies.
- ParserWorker.MessageParser.ProcessMessage: a `message.from` that is not a string, and a truthy `messages` that is not an array, are taken as a delivery with no message. The model stores nothing for them, while what the source does with them depends on how Mongoose casts the value.
- Mongoose save validation follows the schema. A `failed_parsing` listing lacking its brand, model or location fails the required-field validation, so nothing is stored. The worker evidently means to keep such messages as `failed_parsing` listings, but the model follows the code.
- The sold workflow's `getSoldWorkflowStats` is modelled on the grouped records. `$match` by user and the aggregation itself are not modelled.

## Findings

| source | as written | input that shows it | evidently intended | confidence | as-written member | corrected member |
|---|---|---|---|---|---|---|
| backend/services/parser-service.js:29 | the price pattern's currency sign is the mis-encoded text "â‚¹", so "â‚" is required before the figure and "¹" is optional | "Brand: Kirloskar\nModel: KG1\nPrice: ₹850000\nHours: 12500\nLocation: Mumbai" fails with "Missing required field: price", as does any message without the character 'â' or its upper case 'Â'; the worker as written stores such a message as `failed_parsing` | an optional "₹" before the figure, as the copy of the parser in backend/tests/parser.test.js:17 has it | not executed | ListingParser.AsWrittenRejectsOrdinaryText | ListingParser.TestCopyIsServiceWithoutKeywordCheck |
| src/components/GeneratorsPage.tsx:166-168 | `page` is the number from `parseInt`, never the string '1', so page 1 counts as an active filter | the browse page with no query string shows an active-filter count of 1 and the "Clear Filters" button | the first page is not a filter, so the count is 0 without any query string | not executed | BrowsePage.ActiveFiltersCountsPage | BrowsePage.ActiveFiltersCountCharacterised |
