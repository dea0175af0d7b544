# WA_groups_public core, modelled in Dafny

WA_groups_public is a WhatsApp assistant for a real-estate office. This project models its core.

- **Group listener** (`modules/groupListener.js`): watches the WhatsApp groups a user selects. It sends each text message to a language model, which extracts a property listing. It then validates the listing's locations against the Streets sheet and looks up the realtor. Finally it emits one 35-cell row for the Assets sheet.
- **Query bot** (`modules/queryBot.js`): answers questions the owner sends to their own number. It turns the question into a filter with the model, filters the Assets rows, and sends a model summary back marked `[BOT]`.
- **Sheet helpers** (`modules/dataUtils.js`): the next asset id, the realtor lookup and the location check.
- **Connection manager** (`modules/connectWA.js`): reconnects after close and error events, with a delay that depends on the close status code. It resolves a shared connection promise.
- **Credentials manager** (`modules/envManager.js`): loads the form fields from the `.env` file and saves them back into it.

## How the model is built

- **Values and JavaScript operations.** JavaScript values become Dafny values:
  - A missing or falsy string is `""`.
  - `NaN` is `None`.
  - A plain object is its sequence of entries in insertion order.
  - An exception is a `Failure`.

  `trim`, `toLowerCase`, `includes`, `replace` (first match, global, or case-insensitive), `split`/`join`, `padStart`, `parseInt` and `parseFloat` are defined in `text.dfy` and `numbers.dfy`.
- **Outside services are parameters.** Everything the code calls out to is a parameter, in the `Services` and `QueryServices` records:
  - the model, JSON.parse and the sheet reads;
  - the group metadata and the clock;
  - the files.

  The model then shows what each function does with every possible answer, including each error path.
- **Stateful objects are classes.** `GroupListener`, `QueryBot`, `ConnectionManager` and `EnvManager` are classes whose methods update their fields:
  - The listener records the rows it emits.
  - The bot records the replies it sends.
  - The connection manager records the calls, sockets and scheduled reconnections, the credentials and the promise.
  - The credentials manager holds `process.env` and the file content.
- **Loops stay loops.** The loops of the source are methods with loop invariants, proved equal to a specification function. The lemmas state the source's promises about that function.

Modules:
- `Wrappers`: Option and Result.
- `Text`: JavaScript string operations.
- `Numbers`: number and string conversions.
- `Messages`: the Baileys message record and its text.
- `Sheets`: rows and cells.
- `DataUtils`: `dataUtils.js`.
- `Query`: `queryBot.js`.
- `Extraction`: `groupListener.js`.
- `Connection`: `connectWA.js`.
- `Env`: `envManager.js`.

Behaviour of the code worth knowing:
- A row has 35 cells: the internal notes are at index 34, after the status.
- The setup-failure retry budget is checked against the same `retryCount` that close and error reconnections increase. A setup failure after five reconnections of any kind therefore rejects at once (`Connection.ConnectionManager.Connect`).
- Nothing prevents two connection attempts from being in flight together. An `open` after the promise resolved changes nothing, so the promise keeps the first socket (`Connection.ReconnectAfterResolve`).
- The `statusCode === 401` test repeats `DisconnectReason.loggedOut`, which is 401.

## Model

| member | source | states |
|---|---|---|
| Messages.ListingTextAgrees | modules/groupListener.js:183-192 | listener text equals the query bot's text when that is non-empty; "[Non-text message]" for content without text; "" without content |
| Query.MatchesSpec | modules/queryBot.js:340-426 | a row passes iff each present text criterion occurs, ignoring case, in its cell (city 5, neighborhood 3, street 4, type 7), rooms (8) and size (9) lie in the given bounds, the price cells pass, and the status cell (33) contains פעיל unless includeSold |
| Sheets.Flat | modules/dataUtils.js:11-13 | flattening keeps every cell of every row and adds none |
| Numbers.NatToString | modules/dataUtils.js:19 | toString of a non-negative integer: non-empty digits, a leading 0 only for zero |
| Numbers.NatToStringRoundTrip | modules/dataUtils.js:19 | the written digits read back as the number |
| Numbers.PadStart | modules/dataUtils.js:19 | padStart: length max(len, width), ends with the string, padded only with the fill char |
| Numbers.ParseIntOfNatToString | modules/dataUtils.js:14-15 | parseInt reads back what toString wrote |
| Numbers.ParseFloatOfDigits | modules/queryBot.js:348-349 | parseFloat of a plain numeral is its value |
| Text.ContainsIff | modules/queryBot.js:394-397 | includes holds iff the pattern occurs at some index |
| Text.ReplaceFirstSpec | modules/queryBot.js:265 | replace with a string pattern: unchanged without a match, else only the first match replaced |
| Text.RemoveTicksComplete | modules/groupListener.js:241 | after the global removal of three backticks none remain |
| Text.TrimIdempotent | modules/dataUtils.js:59-62 | trimming a trimmed string changes nothing |
| Text.SplitJoin | modules/envManager.js:75-77 | lines without the separator split back out of their join |
| DataUtils.StripLeadingZeros | modules/dataUtils.js:14 | `/^0+/` removal: drops only '0's, all of them, leaves no leading '0' |
| DataUtils.NumericIds | modules/dataUtils.js:12-15 | every number comes from a cell that holds one, and every such cell contributes |
| DataUtils.MaxWithZero | modules/dataUtils.js:18 | at least 0, bounds every id, equals one of them unless 0 |
| DataUtils.NextId | modules/dataUtils.js:18 | at least 1, above every id, max + 1 when there are ids |
| DataUtils.StripPaddingZeros | modules/dataUtils.js:14 | all padding zeros before a numeral not starting with 0 are stripped |
| DataUtils.FormatAssetIdRoundTrip | modules/dataUtils.js:19 | a formatted id has at least 4 chars and reads back as its number |
| DataUtils.NextAssetIdSpec | modules/dataUtils.js:4-25 | at least 4 chars; "0001" on a read error; else an id that reads back as the largest numeric id in column A plus one (1 without ids), so above every id there |
| DataUtils.NextAssetIdFirst | modules/dataUtils.js:17-18 | a column without numeric ids gives "0001" |
| DataUtils.FirstAssetId | modules/dataUtils.js:19 | id 1 is written "0001" |
| DataUtils.ZerosAreNotIds | modules/dataUtils.js:14 | a cell of zeros only is filtered out |
| DataUtils.NonNumericIsNotId | modules/dataUtils.js:14 | a cell starting with a non-digit, non-sign, non-space is filtered out |
| DataUtils.StripPaddingZerosEmpty | modules/dataUtils.js:14 | a cell of zeros strips to "" |
| DataUtils.PaddedId | modules/dataUtils.js:14-15 | zeros then a numeral read as the numeral's value |
| DataUtils.FirstListing | modules/dataUtils.js:36 | the first row whose column B is the phone, or the row count |
| DataUtils.GetRealtorInfo | modules/dataUtils.js:28-46 | a read error propagates; no realtor iff no row lists the phone; else name and phone of the first such row |
| DataUtils.KnownLocations | modules/dataUtils.js:92-94 | the lower-cased column holds no empty entry |
| DataUtils.KnownLocationsIff | modules/dataUtils.js:92-96 | a value is in the list iff some non-empty cell of the column equals it ignoring case |
| DataUtils.ValidateLocationSpec | modules/dataUtils.js:49-112 | empty location: empty result; read error or bad type: original value and an error note; else the cleaned value, noted iff absent from the column |
| DataUtils.ErrorNoteMarked | modules/dataUtils.js:109 | an error note starts with its fixed Hebrew prefix |
| DataUtils.CleanLocationTrimmed | modules/dataUtils.js:59-62 | a cleaned location is trimmed |
| DataUtils.CleanLocationPlain | modules/dataUtils.js:59-62 | a location starting with neither prefix letter is only trimmed |
| DataUtils.CleanLocationOnce | modules/dataUtils.js:60 | a leading ב is removed once, leaving the rest |
| Query.Positive | modules/queryBot.js:373 | the positive entries, in order, nothing added |
| Query.PositiveConcat | modules/queryBot.js:373 | the filter keeps order: filtering a concatenation is filtering each part |
| Query.PricesOfRow | modules/queryBot.js:366-372 | a row's prices are exactly the positive numbers among its four price cells, the parsed cells 13 to 16 |
| Query.Prices | modules/queryBot.js:368-373 | at most four, all positive, exactly the positive price cells |
| Query.ReadListing | modules/queryBot.js:344-373 | the listing read from a row carries only positive prices |
| Query.Keep | modules/queryBot.js:341 | Array.filter: a row is kept iff it is in the input and passes |
| Query.KeepConcat | modules/queryBot.js:341 | filtering distributes over concatenation, keeping order |
| Query.KeepIdempotent | modules/queryBot.js:341 | filtering twice equals filtering once |
| Query.KeepAll | modules/queryBot.js:341 | rows that all pass are returned unchanged |
| Query.FilterRows | modules/queryBot.js:341-437 | a row is in the result iff it is an input row that matches the filter |
| Query.FilterRowsConcat | modules/queryBot.js:341-437 | the filter of a concatenation is the concatenation of the filters |
| Query.FilterRowsIdempotent | modules/queryBot.js:341-437 | filtering the filtered rows again changes nothing |
| Query.FilterRowsKeepsAll | modules/queryBot.js:341-437 | when every row matches, the result is the input |
| Query.LowerCharIdempotent | modules/queryBot.js:344 | lower-casing a lower-cased char changes nothing |
| Query.ToLowerIdempotent | modules/queryBot.js:344 | lower-casing a lower-cased string changes nothing |
| Query.TextMatchesIgnoresCase | modules/queryBot.js:394-397 | for any text column, the criterion's case does not matter and a present criterion is a substring test on the lower-cased cell |
| Query.PriceMatchesCells | modules/queryBot.js:402-405 | the price test holds iff no price cell is positive or some positive one lies between minPrice and maxPrice (or the cap) |
| Query.InRangeClosed | modules/queryBot.js:398-401 | with both bounds set, the range test is the closed interval |
| Query.NoPricePasses | modules/queryBot.js:402 | a row whose four price cells hold no positive number passes any price range |
| Query.NoCriteriaKeepsActive | modules/queryBot.js:394-406 | the empty filter keeps exactly active rows with no price or one under the cap |
| Query.IncludeSoldWidens | modules/queryBot.js:406 | includeSold only adds rows, and changes nothing for active rows |
| Query.RoomsAndPriceExample | modules/queryBot.js:398-405 | 3 rooms under 2,000,000: a 1.8M listing passes, a 2.5M one does not |
| Query.PriceSlotSpec | modules/queryBot.js:470 | no price: "not specified"; else the first price leads; a history line iff several |
| Query.PropertyLines | modules/queryBot.js:466-471 | six lines, the first naming the city, the last the notes |
| Query.FormatPropertyEnds | modules/queryBot.js:466-471 | the summary starts with the city line and ends with the notes |
| Query.MapRowsConcat | modules/queryBot.js:483 | `map` works row by row: the map of a concatenation is the two maps, in order |
| Query.ShortListIgnoresTail | modules/queryBot.js:481-484 | rows after the fifth do not change the short list |
| Query.ShortListEntries | modules/queryBot.js:481-484 | no matches give "", one match gives its summary, and each further match up to the fifth adds a blank line and its summary |
| Query.FillSummaryInOrder | modules/queryBot.js:489-493 | each of the four placeholders is filled in place, in template order |
| Query.FillFirstTwo | modules/queryBot.js:489-491 | the query and filter placeholders are filled in place |
| Query.FillLastTwo | modules/queryBot.js:492-493 | the count and short-list placeholders are filled in place |
| Query.SummaryPromptInOrder | modules/queryBot.js:480-493 | the summary prompt carries query, filter JSON, match count and short list in place |
| Query.InterpretQuery | modules/queryBot.js:261-295 | a failed model call fails with that call's own error; an unparseable reply gives the parse error; else the parsed filter |
| Query.FilterProperties | modules/queryBot.js:297-446 | missing sheet id and read errors fail; else exactly the matching rows |
| Query.ProcessQueryAuthorization | modules/queryBot.js:519-544 | another number is refused before any call; own number never refused; success is the summary of the matches |
| Query.RouteToHandlerIff | modules/queryBot.js:83-139 | handled iff keyed, not the bot's own [BOT] message, direct, and sent by the bot's number |
| Query.ReplyPrefixMarked | modules/queryBot.js:237 | every reply text starts with [BOT] after trimming |
| Query.OwnRepliesNotRouted | modules/queryBot.js:109-113 | the bot's own replies coming back are never handled again |
| Query.ReplyText | modules/queryBot.js:234-252 | the [BOT] line, then the summary on success, or the Hebrew error prefix and the error message on failure |
| Query.HandleQuerySpec | modules/queryBot.js:202-259 | silent iff the query is empty or marked; else a reply in the same chat whose text is the reply text of processQuery's outcome |
| Query.RepliesMarked | modules/queryBot.js:77-145 | every reply of a batch is marked and answers a handled message of that batch |
| Query.UpsertReplies | modules/queryBot.js:77-82 | nothing is sent without a handler or without a message array |
| Query.QueryBot.constructor | modules/queryBot.js:8-16 | uninitialised, no number, empty prompts, no handler, nothing sent |
| Query.QueryBot.Initialize | modules/queryBot.js:18-158 | no-op once done; else steps in order, the first error returned with earlier fields kept; success stores prompts, number and one handler |
| Query.QueryBot.HandleWhatsAppQuery | modules/queryBot.js:202-259 | appends exactly the handler's answer to what was sent |
| Query.QueryBot.Deliver | modules/queryBot.js:83-143 | appends exactly the replies the message's routing leads to |
| Query.QueryBot.OnMessagesUpsert | modules/queryBot.js:77-145 | appends the replies to the batch, message by message; state otherwise unchanged |
| Extraction.TransformAdvertisedPhoneSpec | modules/groupListener.js:20-25 | a 0-number gets 972 in place of the 0 and keeps its other digits; any other number is unchanged; applying twice equals once |
| Extraction.Pad2Small | modules/groupListener.js:171 | single digits get a leading 0 |
| Extraction.Pad2Value | modules/groupListener.js:171-175 | two digits whose value is the number mod 100 |
| Extraction.TimestampLayout | modules/groupListener.js:170-176 | `DD/MM/YYYY HH:MM` with each field at its position, month one-based |
| Extraction.SenderPhoneSpec | modules/groupListener.js:179-180 | a participant's user suffix is removed; no id at all gives "Unknown" |
| Extraction.SenderPhoneOfGroup | modules/groupListener.js:179-180 | without a participant, the group id without @g.us |
| Extraction.StripFencesNoTicks | modules/groupListener.js:241 | the cleaned reply has no three-backtick run |
| Extraction.LowerCharTick | modules/groupListener.js:241 | a backtick is unaffected by case folding and no other char folds to one |
| Extraction.IgnoreCaseNoTick | modules/groupListener.js:241 | text without backticks loses nothing to the json-fence removal |
| Extraction.TicksNoTick | modules/groupListener.js:241 | the tick removal leaves text without backticks unchanged and drops a closing fence after it |
| Extraction.StripFencesBlock | modules/groupListener.js:241 | a fenced json block is cleaned to its trimmed body |
| Extraction.IgnoreCaseNoTickFenced | modules/groupListener.js:241 | only the opening fence of a fenced block is removed by the first replace |
| Extraction.IgnoreCaseTail | modules/groupListener.js:241 | a closing fence is not taken for an opening one |
| Extraction.RepairComplete | modules/groupListener.js:336 | after the repair no unescaped ש"ח is left |
| Extraction.RepairNoop | modules/groupListener.js:336 | text without ש"ח is unchanged by the repair |
| Extraction.NoteFor | modules/groupListener.js:256-267 | at most one note per location kind, never empty |
| Extraction.LocationNotes | modules/groupListener.js:254-269 | at most one note per kind, none empty |
| Extraction.NoLocationsNoNotes | modules/groupListener.js:255-256 | listings without locations produce no notes |
| Extraction.UnreadableStreetsNotes | modules/groupListener.js:254-269 | an unreadable Streets sheet yields one error note per location present |
| Extraction.KnownLocationsNoNotes | modules/groupListener.js:254-269 | locations all known to the sheet produce no notes |
| Extraction.MergeNotesSpec | modules/groupListener.js:272-275 | notes join the internal notes after a newline; other fields unchanged; none, no change |
| Extraction.FinalRowLayout | modules/groupListener.js:291-327 | 35 cells: id, realtor, phone, the detail fields, currency default ש"ח, timestamp, group, status default פעיל, notes |
| Extraction.FinalRowColumns | modules/groupListener.js:291-327 | the columns the query bot filters on hold the fields the listener wrote there |
| Extraction.ActiveStatusLower | modules/groupListener.js:325 | the default status is unchanged by lower-casing and matches itself |
| Extraction.DefaultStatusActive | modules/groupListener.js:325 | a row without a status passes the query bot's active test |
| Extraction.BuildRow | modules/groupListener.js:277-327 | fails exactly when the Realtors read fails |
| Extraction.ParseWithRepairSpec | modules/groupListener.js:243-432 | the first parse is used when it works; else one repaired parse; without ש"ח a failed parse stays failed; Realtors error, no row |
| Extraction.ModelAnswerSpec | modules/groupListener.js:156-241 | no model call without text, for the non-text marker, or without a client; the answer carries phone, timestamp and group name |
| Extraction.OutcomeSpec | modules/groupListener.js:156-442 | no row without text, client, reply or Realtors sheet; a row has 35 cells with next id, phone, timestamp, group |
| Extraction.CollectLocationNotes | modules/groupListener.js:254-269 | the loop's notes equal the specification's, kind by kind |
| Extraction.PrepareRow | modules/groupListener.js:247-332 | computes the specified row or error |
| Extraction.BatchRows | modules/groupListener.js:138-143 | a batch emits at most one row per message |
| Extraction.CollectRows | modules/groupListener.js:138-143 | the loop's rows equal the batch's specified rows |
| Extraction.MessageRows | modules/groupListener.js:140-142 | at most one row; none for unkeyed messages or unselected groups |
| Extraction.BatchRowsOutside | modules/groupListener.js:138-143 | a batch from unselected groups emits nothing |
| Extraction.BatchRowsSingle | modules/groupListener.js:138-143 | a single selected message emits its outcome; an unselected one nothing |
| Extraction.BatchRowsNoGroups | modules/groupListener.js:140 | with no selection nothing is emitted |
| Extraction.GroupListener.constructor | modules/groupListener.js:28-35 | no groups, not listening, no handler, nothing emitted |
| Extraction.GroupListener.SetSelectedGroups | modules/groupListener.js:121-125 | the selection becomes exactly the given groups |
| Extraction.GroupListener.StartListening | modules/groupListener.js:127-154 | no-op while listening; connection error rethrown; else listening with one more handler |
| Extraction.GroupListener.StopListening | modules/groupListener.js:444-449 | flag cleared, selection emptied, handler count unchanged |
| Extraction.GroupListener.StopListeningDetached | modules/groupListener.js:444-449 | as intended: also removes the handler, restoring one handler per listening state |
| Extraction.GroupListener.ProcessMessage | modules/groupListener.js:156-442 | emits exactly the message's outcome row, if any |
| Extraction.GroupListener.RunHandler | modules/groupListener.js:137-144 | one handler appends the batch's rows for the current selection |
| Extraction.GroupListener.OnMessagesUpsert | modules/groupListener.js:137-144 | every registered handler appends the batch's rows once |
| Extraction.Restarted | modules/groupListener.js:127-154 | start, stop, reselect, start leaves two handlers as written, one when detached |
| Extraction.RestartAsWritten | modules/groupListener.js:137-144 | after a restart one selected message is emitted twice |
| Extraction.RestartCorrected | modules/groupListener.js:444-449 | with the handler removed on stop the message is emitted once |
| Connection.Pow2Monotone | modules/connectWA.js:85 | powers of two grow with the exponent |
| Connection.Backoff | modules/connectWA.js:85 | between 1 and 60 seconds |
| Connection.BackoffMonotone | modules/connectWA.js:85 | non-decreasing in the retry count, capped from retry 6 on |
| Connection.BackoffDoubles | modules/connectWA.js:85 | doubles each retry below the cap |
| Connection.ClassifyClose | modules/connectWA.js:58-90 | delays within the cap; no retry iff the status code is missing or 0 |
| Connection.ClassifyCloseSpec | modules/connectWA.js:58-90 | 401 clears and retries now; 515 after 5 s; 440 after 10 s; other codes after the backoff |
| Connection.SetupRetry | modules/connectWA.js:122-130 | a retry iff fewer than 5 were made, after 3 s times the next attempt number |
| Connection.SetupFailureRun | modules/connectWA.js:119-131 | a run of setup failures counts up by one from the given retry count to five, one more call than retries left |
| Connection.SetupGivesUp | modules/connectWA.js:119-131 | from the first call, retries 0 to 5, rejecting after 45 s of delays |
| Connection.SettleFirstWins | modules/connectWA.js:6 | once the promise is settled later resolves and rejects change nothing; it stays pending only while nothing settled it |
| Connection.ConnectionManager.constructor | modules/connectWA.js:6-12 | no calls, sockets or reconnections; promise pending |
| Connection.ConnectionManager.Finish | modules/connectWA.js:139-147 | settles once; a rejection mentioning auth or 401 deletes the credentials |
| Connection.ConnectionManager.Connect | modules/connectWA.js:12-131 | called with 0 or the retry count of a scheduled reconnection: a socket, or a linear-delay retry, or once retries are exhausted a rejection that clears the credentials for an auth or 401 message |
| Connection.ConnectionManager.OnClose | modules/connectWA.js:58-90 | per class: credentials removed and an immediate retry, or on a failed removal a rejection that clears them for an auth or 401 message; a delayed retry; or nothing |
| Connection.ConnectionManager.OnOpen | modules/connectWA.js:93-98 | resolves with this socket unless already settled |
| Connection.ConnectionManager.OnError | modules/connectWA.js:102-117 | Unauthorized or 401: credentials removed if possible, retry after 5 s; otherwise nothing |
| Connection.ConnectionManager.OnCredsUpdate | modules/connectWA.js:48 | the credentials are saved |
| Connection.ReconnectAfterResolve | modules/connectWA.js:58-97 | a reconnection after the promise resolved never replaces its socket |
| Env.KeysOf | modules/envManager.js:26 | one key per entry, and a string is a key iff some entry carries it |
| Env.KeyIndexFrom | modules/envManager.js:27 | the first position of a key at or after a start, or -1 when there is none |
| Env.Lookup | modules/envManager.js:27 | obj[k]: present iff the key is, and then one of its entries |
| Env.Assign | modules/envManager.js:62 | an existing key keeps its place; a new key is appended |
| Env.AssignSpec | modules/envManager.js:62 | the assigned key reads the new value, others unchanged, keys stay distinct |
| Env.KeyMappingKeys | modules/envManager.js:9-14 | the four form keys, distinct, in order |
| Env.LoadedValues | modules/envManager.js:25-29 | one entry per mapped form key, set to the file's value or "" |
| Env.Blank | modules/envManager.js:36-39 | every given key set to "" |
| Env.LoadResultSpec | modules/envManager.js:17-44 | four form keys with file value or ""; a missing file like an empty one; other read errors rethrown |
| Env.LoadValues | modules/envManager.js:25-29 | the loop's object equals the specified values |
| Env.LoadEnv | modules/envManager.js:17-44 | computes the specified load result |
| Env.EnvKeyOf | modules/envManager.js:60 | a .env key exactly for the four form keys |
| Env.Merge | modules/envManager.js:58-64 | existing keys keep their order at the front |
| Env.MergeIgnores | modules/envManager.js:59-64 | unmapped keys and empty values leave the entries as they were |
| Env.MergeKeeps | modules/envManager.js:58-64 | keys stay distinct; an untargeted key keeps its value |
| Env.MergeLastWins | modules/envManager.js:59-64 | the last effective value for a key is the one written |
| Env.MergeVariables | modules/envManager.js:58-64 | the loop's merge equals the specified merge |
| Env.Clean | modules/envManager.js:67-72 | exactly the entries with non-empty values |
| Env.CleanConcat | modules/envManager.js:67-72 | cleaning keeps order: cleaning a concatenation is cleaning each part |
| Env.CleanUnique | modules/envManager.js:67-72 | cleaning keeps keys distinct |
| Env.CleanLookup | modules/envManager.js:67-72 | non-empty values keep their key, empty ones lose it |
| Env.ReadLineOf | modules/envManager.js:76 | a line reads back as its key and value |
| Env.SerialiseRoundTrip | modules/envManager.js:75-77 | the written content reads back as the entries under a plain line reader (split on newlines, key before the first =), not under dotenv.parse |
| Env.Overlay | modules/envManager.js:82-84 | no existing variable is lost |
| Env.OverlaySpec | modules/envManager.js:82-84 | written keys hold their values; other variables untouched |
| Env.Saved | modules/envManager.js:48-72 | the written entries all have non-empty values |
| Env.CopyToEnv | modules/envManager.js:82-84 | the loop's environment equals the specified overlay |
| Env.EnvManager.constructor | modules/envManager.js:6-15 | holds the given process environment, no file written |
| Env.EnvManager.SaveEnv | modules/envManager.js:46-91 | a read error or a failed open is rethrown with nothing changed; a write that fails after opening is rethrown with process.env unchanged and the file emptied or holding a prefix of the new content; else the merged, cleaned entries written and copied into process.env |

## Left out

- Logging, console and stdout output, the QR code and the SIGINT handler are left out. They only print.
- The OpenAI and Google clients are not modelled. They become the parameters behind `Services` and `QueryServices`:
  - The model calls are functions from prompt to reply or error.
  - The sheet reads are fixed `Result` values.
  - JSON.parse and JSON.stringify are functions given as parameters. The parse of a filter or of the listing fields is not modelled.
- A field of the parsed JSON object holds its value's text (a number 3 is "3"), and a falsy value (missing, null, "", 0, false) is "". The model does not tell a number apart from its text.
  - `validateLocation` on a truthy location that is not a string throws at `location.trim()`, and the catch turns that into an error note (modules/dataUtils.js:59 and 105-110). With every field held as text, the model does not produce that note.
- The sheet reads are held fixed across the two parse attempts of one message and across the messages of a batch.
  - A row appended by another processor between reads is not modelled.
  - Concurrent writers to the Assets sheet are not modelled.
- Floating point is not modelled. Prices, rooms and sizes are exact reals, and `Intl.NumberFormat` is a parameter.
  - Asset ids are exact integers too. In the source they are JavaScript numbers: above 2^53 the `+ 1` can round back to an existing id, and from 1e21 on `toString` writes an exponent. `DataUtils.NextAssetIdSpec`'s "above every id" holds only for exact integers.
  - `parseFloat` does not read `Infinity`.
- Case folding is ASCII only: `toLowerCase` maps only A-Z. Hebrew text has no case, so this does not matter for the Hebrew values. `trim` removes the ECMAScript white space and line terminators.
- In `replace`, `$` patterns in the replacement are taken literally.
- The parse of the `.env` text by dotenv is not modelled. It is an input. `Env.ReadContent`, the reader `Env.SerialiseRoundTrip` uses, does not trim values or cut them at `#` as dotenv does.
- How far a failed `fs.writeFile` got is an input to `Env.EnvManager.SaveEnv` (`Env.WriteOutcome`). Which errors Node raises before or after emptying the file is not modelled.
  - JavaScript's ordering of integer-like object keys is not modelled.
  - Prototype keys are not modelled.
- The `fs.rmSync` in the outer `catch` of the connection promise is assumed to succeed.
- The auth-info directory creation and the socket options are left out.
- `testSheetsConnection` is part of the setup outcome (`Setup`). Its reads and output are not modelled one by one.
- Both `sendMessage` calls pass `{ quoted: message }` (modules/queryBot.js:238 and 251). The reply in the model holds only the text and the chat, so quoting is not modelled.
- Query.FillSummaryInOrder: states the in-place fill only for a query and values without `<`. `summarizeResults` fills the placeholders one after the other, each `replace` acting on the text filled so far (modules/queryBot.js:489-493). A query that itself contains `<FILTER_JSON>`, `<COUNT>` or `<SHORT_LIST>` gets that text replaced instead, and the template's own placeholder stays literal. `Query.FillSummary` models that sequential fill as written.
- The send of a reply is assumed to succeed. The error reply after a failed send is left out.
- Handlers run concurrently in the source. The model runs one `messages.upsert` handler at a time, each over the whole batch, so the interleaving of their awaited calls is not modelled.
- Timers are not waited on. A scheduled reconnection is recorded, and the next `Connect` is an independent event.
- The `processedMessage` event is the append to `emitted`. Its listeners, such as `sheetsUpdater.js`, are not part of this model.
- Extraction.GroupListener.RunHandler: computes the batch's rows in a helper loop and appends them once. This is equivalent because `processMessage` only ever appends.
- Query.PropertyLines: states only the first line's prefix and the notes line, not the middle lines.
- Extraction.FinalRowColumns: covers only the columns the query bot reads. `FinalRowLayout` gives the whole row.

## Findings

| source | as written | input that shows it | evidently intended | confidence | as-written member | corrected member |
|---|---|---|---|---|---|---|
| modules/groupListener.js:444-449 | `stopListening` clears the flag and the selection, but leaves the `messages.upsert` handler on the socket. The next `startListening` registers another one. | `setSelectedGroups(g)`, `startListening()`, `stopListening()`, `setSelectedGroups(g)`, `startListening()`, then one text message in `g` that the model extracts | each message of a selected group is processed once, giving one row | not executed | Extraction.RestartAsWritten | Extraction.RestartCorrected |
