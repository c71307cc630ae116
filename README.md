# Docushare core in Dafny

Docushare lets a student send a document to a print shop. The student picks a
file and types the shop's name, and gets back a collection code of the form
`SHOP-YYMMDD-NNN`. The shop's dashboard lists the documents waiting for that
shop in upload order. Downloading a document marks it as completed and feeds
the waiting-time statistics.

This project models the core of that application:

- **Application state** (`App.tsx`, module `ShopApp`, class `ShopState`). It covers:
  - the active shop ID and the document queue;
  - the dashboard statistics and the local daily counter with its reset day;
  - the stores the application reads and writes: the database's `counters` and `documents` trees, and the three local-storage entries.

  The handlers are methods on this state:
  - the start-up day check;
  - setting the shop ID;
  - the queue snapshot listener and the queue reset;
  - the upload handler that issues a collection code;
  - the completion handler.

  The React effects that keep `inQueue`, the stored counter and the stored shop ID in step are folded into the handler that triggers them. They are stated as the class invariant `Valid`.
- **Student form** (`components/StudentInterface.tsx`, module `Student`, class `StudentForm`). It covers:
  - file validation against the 100 MiB cap;
  - shop-name normalisation and its error messages;
  - the simulated progress interval;
  - the upload click;
  - the reset.
- **Shop-screen logic** (`components/ShopInterface.tsx`, module `ShopView`). It covers:
  - the extension-to-MIME table;
  - the placeholder file name;
  - the shop-ID setup guard and the 12-character input;
  - the average-wait card;
  - what a download leads to.
- **Supporting modules:**
  - The records and constants (`types.ts`, `constants.ts`, module `Types`).
  - The collection-code format (module `CollectionCodes`).
  - The queue as the snapshot turns it into a sorted list (module `Queue`).
  - The JavaScript string built-ins the code relies on (module `Text`):
    - `trim` over the ECMAScript white-space set;
    - ASCII `toUpperCase` and `toLowerCase`;
    - `split`;
    - `String(n)`, `padStart` and `parseInt`.
  - The data-URL split (module `DataUrls`).

Store reads and writes that can fail are boolean parameters of the handler that performs them (`counterWriteFails`, `documentWriteFails`, `writeFails`, `fails`). The current time (`Date.now()`), today's date (`new Date()`, `toDateString()`) and the file reader's data URL are parameters too. The snapshot is the sequence of stored records in the order `Object.values` lists them.

In a few places a reader might expect something the code does not do; the model follows the code:

- The queue holds every record of the shop, pending or completed. It is ordered by upload time alone, with equal times kept in snapshot order; there is no pending filter and no tie-break on the ID.
- `padStart` never truncates, so a counter of 1000 or more gives a longer code.
- The code's prefix is whatever the first four characters of the active name are after upper-casing.
- `totalProcessed`, `todayCount` and `avgWaitTimeMinutes` are never updated by any handler.

## Model

| member | source | states |
|---|---|---|
| Text.ToUpperHasNoLower | components/StudentInterface.tsx:81 | an upper-cased name holds no lower-case letter, and upper-casing again changes nothing |
| Text.ToUpper | components/StudentInterface.tsx:81 | `toUpperCase` maps each ASCII letter to upper case and keeps the length; its content is stated by ToUpperHasNoLower and ToUpperConcat |
| Text.ToLower | components/ShopInterface.tsx:134 | `toLowerCase` maps each ASCII letter to lower case and keeps the length; its effect on dots and known extensions is stated by the ShopView lemmas |
| Text.UpperCharKeepsSpace | components/ShopInterface.tsx:61 | upper-casing turns no character into white space or out of it |
| Text.TrimStart | components/StudentInterface.tsx:81 | the result is no longer than the input and does not start with white space |
| Text.TrimStartShape | components/StudentInterface.tsx:81 | trimming the start removes exactly a prefix made only of white space |
| Text.TrimEnd | components/StudentInterface.tsx:81 | the result is no longer than the input and does not end with white space |
| Text.TrimEndShape | components/StudentInterface.tsx:81 | trimming the end removes exactly a suffix made only of white space |
| Text.Trim | components/StudentInterface.tsx:81 | the trimmed text is no longer than the input and neither starts nor ends with white space |
| Text.TrimBlank | components/ShopInterface.tsx:60 | `trim()` is empty exactly when every character of the input is white space |
| Text.TrimStartOfNonSpace | components/StudentInterface.tsx:118 | a text that does not start with white space is unchanged by trimming the start |
| Text.TrimEndOfNonSpace | components/StudentInterface.tsx:118 | a text that does not end with white space is unchanged by trimming the end |
| Text.TrimIdempotent | components/StudentInterface.tsx:166-170 | trimming twice is trimming once |
| Text.UpperTrimStart | components/ShopInterface.tsx:61 | upper-casing commutes with trimming the start |
| Text.UpperTrimEnd | components/ShopInterface.tsx:61 | upper-casing commutes with trimming the end |
| Text.UpperTrimCommute | components/ShopInterface.tsx:61 | `trim().toUpperCase()` (shop setup) equals `toUpperCase().trim()` (App.tsx:198) |
| Text.TrimOfTrimmed | components/StudentInterface.tsx:118 | a text without leading or trailing white space is its own trim |
| Text.UpperTrim | components/StudentInterface.tsx:81 | the normalised name has no lower-case letter, no leading or trailing white space, and is no longer than what was typed |
| Text.UpperTrimBlank | components/StudentInterface.tsx:81-85 | the normalised name is empty exactly when everything typed was white space |
| Text.UpperTrimOfNormal | App.tsx:198 | normalising an already normalised name changes nothing |
| Text.BeforeFirst | components/ShopInterface.tsx:116 | `split('.')[0]` is the longest prefix without a dot, and the next character is the first dot |
| Text.AfterLast | components/ShopInterface.tsx:134 | `split('.').pop()` is the longest suffix without a dot, preceded by the last dot |
| Text.BeforeFirstWithoutSep | components/ShopInterface.tsx:116 | a text without the separator is its own first segment |
| Text.BeforeFirstOfJoin | components/ShopInterface.tsx:116 | the first segment of `a + sep + b` is `a` when `a` holds no separator |
| Text.AfterLastOfJoin | components/ShopInterface.tsx:134 | the last segment of `a + sep + b` is `b` when `b` holds no separator |
| Text.NatToString | App.tsx:231 | `String(n)` is a non-empty digit string without a leading zero whose decimal value is `n` |
| Text.NatToStringLength | App.tsx:231 | `String(n)` has at most `k` digits exactly when `n < 10^k` |
| Text.IntToString | App.tsx:164 | `String(i)` for any integer: `String(n)` of the magnitude after a minus sign when negative; stated by IntToStringDigits |
| Text.IntToStringDigits | App.tsx:164 | `String(i)` is the decimal digits of `i`, preceded by a minus sign exactly when `i` is negative |
| Text.PadStart | App.tsx:206 | `padStart` gives the width when the text is shorter, and the text's own length otherwise (it never truncates) |
| Text.PadStartShape | App.tsx:206 | the padded text ends with the original text and starts with pad characters only |
| Text.ZeroPadValue | App.tsx:231 | zero-padding keeps the decimal value |
| Text.LeadingDigits | App.tsx:112 | the digit run `parseInt` reads is the longest prefix of digits |
| Text.ParseInt | App.tsx:112 | `parseInt(s, 10)`: leading white space and one sign skipped, the longest digit run read, NaN (None) without digits; stated by ParseIntRoundTrip and LeadingDigits |
| Text.ParseIntRoundTrip | App.tsx:112 | `parseInt(String(i), 10)` gives back `i` for every integer |
| DataUrls.DataUrl | components/ShopInterface.tsx:79 | `data:<type>;base64,<data>`; that the student side's split recovers `<data>` is stated by PayloadOfDataUrl |
| DataUrls.Payload | components/StudentInterface.tsx:45 | `split(',')[1]` is undefined exactly when the URL has no comma; otherwise it is comma-free and shorter than the URL |
| DataUrls.PayloadBetweenCommas | components/StudentInterface.tsx:45 | the payload is the text between the first comma and the next comma |
| DataUrls.PayloadOfDataUrl | components/StudentInterface.tsx:38-50 | a base64 data URL's payload is the base64 data the reader encoded |
| CollectionCodes.ActiveShopName | App.tsx:208 | the active name is never empty: the form's name when given, else the shop ID when non-empty, else UNKNOWN |
| CollectionCodes.DatePrefix | App.tsx:205-206 | the `YYMMDD` prefix; stated by DatePrefixDigits and DatePrefixInjective |
| CollectionCodes.ShopPrefix | App.tsx:209 | `substring(0, 4).toUpperCase()`: the first four characters (all of a shorter name), with no lower-case letter |
| CollectionCodes.CounterField | App.tsx:231 | `String(counter).padStart(3, '0')`; stated by CounterFieldDigits |
| CollectionCodes.CollectionCode | App.tsx:231 | `prefix-YYMMDD-NNN`; stated by CodesDistinct and CodeMatchesPattern |
| CollectionCodes.TwoDigitField | App.tsx:206 | month+1 and the day are padded to exactly two digits with their own value |
| CollectionCodes.YearField | App.tsx:206 | a four-digit year contributes exactly its last two digits |
| CollectionCodes.DatePrefixDigits | App.tsx:205-206 | the date prefix is six digits: year mod 100, month+1 and the day, two digits each |
| CollectionCodes.DatePrefixInjective | App.tsx:205-206 | within one century, different days get different date prefixes |
| CollectionCodes.CounterFieldDigits | App.tsx:231 | the counter field is the counter in decimal: exactly three digits up to 999, four or more above |
| CollectionCodes.CodesDistinct | App.tsx:231 | different counters give different codes for the same shop and day |
| CollectionCodes.CodeMatchesPattern | App.tsx:205-231 | every code issued on a valid day with a counter in 1..999 is 1-4 prefix characters without lower case, a dash, six digits, a dash, three digits |
| Queue.ToDocument | App.tsx:127-135 | a stored record keeps its ID and upload time in the queue, and is completed exactly when its stored status says so (a missing status reads as pending) |
| Queue.ToDocuments | App.tsx:127 | the snapshot's records map one-to-one to queue items, in order |
| Queue.Insert | App.tsx:137 | one insertion step of the stable sort: the queue grows by one; stated by InsertPermutes, InsertSorted and InsertStable |
| Queue.InsertPermutes | App.tsx:137 | inserting adds exactly that one element |
| Queue.InsertSorted | App.tsx:137 | inserting into a queue sorted by upload time keeps it sorted |
| Queue.InsertStable | App.tsx:137 | insertion keeps the relative order of items with the same upload time |
| Queue.SortByUpload | App.tsx:137 | the sort is a permutation of its input and is ordered by upload time |
| Queue.SortStable | App.tsx:137 | the sort is stable: items with equal upload times keep their snapshot order |
| Queue.SortSingle | App.tsx:137 | a one-element list is already sorted |
| Queue.SortSwapsPair | App.tsx:137 | two items out of upload order are swapped |
| Queue.Reconcile | App.tsx:124-142 | no snapshot gives an empty queue; otherwise the queue holds exactly the snapshot's documents, sorted by upload time |
| Queue.ReconcileStable | App.tsx:124-142 | documents uploaded at the same instant appear in snapshot order |
| Queue.CompletedRecordsStay | App.tsx:125-138 | a completed record stays in the queue, marked completed |
| Queue.ReconcileSingle | App.tsx:124-138 | a one-record snapshot gives that one document |
| Queue.ReconcileExample | App.tsx:124-138 | two records listed newest first come out oldest first |
| Queue.IndexOfId | App.tsx:288 | the search stops at the first item with the ID, and no earlier item has it |
| Queue.FindSingle | App.tsx:288 | a one-document queue finds that document by its own ID |
| Queue.FindById | App.tsx:288 | `find` fails exactly when no item has the ID; otherwise it returns the first queue item with that ID |
| Queue.RemoveId | App.tsx:310 | filtering never lengthens the queue |
| Queue.RemoveIdRemoves | App.tsx:310 | no item with the completed ID survives the filter |
| Queue.RemoveIdWithoutId | App.tsx:310 | a queue without the ID is left as it is |
| Queue.RemoveIdSnoc | App.tsx:310 | filtering a queue with one more item filters that item alone |
| Queue.RemoveIdKeepsOthers | App.tsx:310 | every item with another ID survives, as often as it occurred |
| Queue.RemoveIdConcat | App.tsx:310 | filtering distributes over concatenation |
| Queue.RemoveIdSubset | App.tsx:310 | every survivor was in the queue |
| Queue.RemoveIdSorted | App.tsx:310 | filtering a sorted queue leaves it sorted |
| Queue.FilterOutId | App.tsx:310 | the loop builds exactly the filtered queue |
| Queue.WaitMinutes | App.tsx:291 | the wait in minutes between upload and completion; stated by WaitMinutesScale and HalfHourWait |
| Queue.WaitMinutesScale | App.tsx:291 | the wait times 60000 is the elapsed milliseconds, and it is never negative when time moved forward |
| ShopView.MimeOfExtension | components/ShopInterface.tsx:133-179 | for `base.ext` with a dot-free extension, the MIME type is the table entry for the lower-cased extension |
| ShopView.Extension | components/ShopInterface.tsx:134 | `toLowerCase().split('.').pop()`; stated by ExtensionShape |
| ShopView.ExtensionShape | components/ShopInterface.tsx:134 | the extension is the lower-cased name's last dot-free segment, preceded by its last dot when there is one |
| ShopView.MimeTypeOfExtension | components/ShopInterface.tsx:135-179 | the table entry for an extension, `application/octet-stream` for any other; stated by AliasEntries and TrailingDotIsOctetStream |
| ShopView.MimeTypeFromFileName | components/ShopInterface.tsx:133-180 | `getMimeTypeFromFileName`; stated by MimeOfExtension, MimeWithoutDot, MimeIgnoresCase and the alias lemmas |
| ShopView.MimeWithoutDot | components/ShopInterface.tsx:134 | a name without a dot is looked up whole, lower-cased |
| ShopView.TrailingDotIsOctetStream | components/ShopInterface.tsx:179 | a name ending in a dot gets `application/octet-stream` |
| ShopView.MimeIgnoresCase | components/ShopInterface.tsx:134 | names equal up to case get the same MIME type |
| ShopView.AliasEntries | components/ShopInterface.tsx:149-157 | jpg and jpeg, tif and tiff share their table entries |
| ShopView.SharedEntrySameType | components/ShopInterface.tsx:134-179 | two lower-case, dot-free extensions with the same table entry give files of either the same type |
| ShopView.AliasFiles | components/ShopInterface.tsx:149-157 | `.jpg` and `.jpeg` files are both `image/jpeg`, and `.tif` and `.tiff` files are both `image/tiff` |
| ShopView.PlaceholderOfDotted | components/ShopInterface.tsx:116 | the placeholder keeps what precedes the first dot and appends `_info.txt` |
| ShopView.PlaceholderWithoutDot | components/ShopInterface.tsx:116 | a name without a dot is kept whole |
| ShopView.PlaceholderName | components/ShopInterface.tsx:116 | the placeholder ends in `_info.txt` after a dot-free prefix of the file name that stops at its first dot |
| ShopView.ShopIdInput | components/ShopInterface.tsx:203 | the field keeps a prefix of the typed text: all of it up to 12 characters, exactly 12 characters of a longer input |
| ShopView.SetupShop | components/ShopInterface.tsx:59-65 | a blank ID is refused with the empty-ID message exactly when all characters are white space; otherwise the ID passed on is the input upper-cased and trimmed (`UpperTrim`), non-empty, without lower case or surrounding white space |
| ShopView.SetupShopIdIsNormal | components/ShopInterface.tsx:61 | the application's second normalisation (App.tsx:198) does not change an accepted ID |
| ShopView.SetupShopBounded | components/ShopInterface.tsx:203 | an ID set up through the field is at most 12 characters |
| ShopView.AvgWaitDisplay | components/ShopInterface.tsx:182-184 | the card shows N/A exactly when no item was counted, and otherwise `avgWaitTimeMinutes` in hours |
| ShopView.AvgWaitDisplayCorrected | components/ShopInterface.tsx:182-184 | N/A exactly when no item was counted; otherwise the mean of the recorded waits, in hours |
| ShopView.HandleDownload | components/ShopInterface.tsx:68-130 | a failing download completes nothing; otherwise the document is completed, saved as its own file with its MIME type when its data is a non-empty string, and as the `text/plain` placeholder when the data is missing or empty |
| Student.ShopNameError | components/StudentInterface.tsx:83-87 | the too-short message shows exactly for a non-empty name under three characters |
| Student.ProgressTicks | components/StudentInterface.tsx:131-153 | the interval shows 1, 2, …, 100 and calls the upload handler exactly once |
| Student.TickPeriodMs | components/StudentInterface.tsx:154 | ticks come every 50 ms, or every 25 ms for files above 10 MiB |
| Student.StudentForm.constructor | components/StudentInterface.tsx:53-59 | the form starts empty, with no error, no progress and no code |
| Student.StudentForm.ValidateAndSetFile | components/StudentInterface.tsx:70-78 | a file over the cap is refused with an error and clears the selection; otherwise it is selected and the error cleared; nothing else changes |
| Student.StudentForm.ShopNameChange | components/StudentInterface.tsx:80-88 | the stored name is the upper-cased, trimmed input, and the error is the too-short one or none; the upload button is then enabled exactly when there is no file error, no upload is running and the name has at least three characters |
| Student.StudentForm.TrimmedShopName | components/StudentInterface.tsx:118 | trimming the stored name gives the name itself |
| Student.ConvertedData | components/StudentInterface.tsx:38-50 | the reader's result yields data exactly when there is a data URL holding a comma; the data is comma-free and shorter than the URL; a comma-free URL is a failed conversion because its undefined payload makes `fileData.length` (line 128) throw |
| Student.ConvertedDataOfDataUrl | components/StudentInterface.tsx:38-50 | a base64 data URL with comma-free type and data converts back to that data |
| Student.StudentForm.SimulateUpload | components/StudentInterface.tsx:117-163 | nothing happens without a file or a name; a failed conversion (a reader error, or a data URL without a comma, whose undefined payload makes `fileData.length` throw) stops with progress 0 and no request; otherwise the handler receives the file, the name and the data URL's payload, and the returned code is shown |
| Student.StudentForm.RunUpload | components/StudentInterface.tsx:120-162 | after the guard: a failed conversion (no data URL, or one without a comma) resets progress and sends nothing; otherwise progress reaches 100, the request carries the payload and the code is shown when the handler succeeds |
| Student.StudentForm.UploadClick | components/StudentInterface.tsx:165-177 | an empty name gives "Please enter the shop name" and a short one the too-short error, with the upload state untouched; an accepted name keeps its error and, with a selected file, runs the upload with the whole new state of SimulateUpload (progress 0 and no request after a failed conversion, including a data URL without a comma; the request, progress 100 and the returned code otherwise); without a file nothing changes |
| Student.StudentForm.Reset | components/StudentInterface.tsx:179-190 | the form is back in its initial state |
| Student.StudentForm.CanUpload | components/StudentInterface.tsx:287 | the upload button is enabled exactly when no file error and no name error is shown, the trimmed name is non-empty and no upload is running |
| ShopApp.PersistedShopId | App.tsx:158-161 | a non-empty shop ID is saved; otherwise the entry is removed |
| ShopApp.NextStoredCounter | App.tsx:212-223 | 1 when no counter is stored for the shop and day, otherwise one more than the stored value |
| ShopApp.ConsecutiveUploadsDiffer | App.tsx:211-231 | two successful uploads in a row for the same shop and day get consecutive counters and different codes |
| ShopApp.RestoredCounter | App.tsx:110-112 | a saved counter that parses replaces the current one, anything else keeps it, and a counter saved by `String(n)` comes back as `n` |
| ShopApp.UploadKey | App.tsx:208-211 | the counter lives under a non-empty shop name and the day's date prefix |
| ShopApp.IssuedCode | App.tsx:204-231 | the code an upload returns, from the stored counter or, when managing it throws, the local counter; used by the contract of ShopState.Upload |
| ShopApp.FormNameGivesPrefix | App.tsx:208-209 | a name from the student form (already upper case) is itself the counter's shop and gives its first four characters as the prefix |
| ShopApp.PendingRecord | App.tsx:237-246 | the upload writes a pending record under the code, naming the active shop, which the queue reads back as the uploaded document |
| ShopApp.CompletedRecord | App.tsx:295-299 | the completion writes the document's own fields with status completed and the completion time; the shop name is not among them |
| ShopApp.ShopState.constructor | App.tsx:15-32 | mounting reads the saved shop ID, starts from an empty queue and zero statistics, and sets the counter: 1 on a new day or with nothing saved, the saved `String(n)` value on the same day, 1 when the same day has no readable saved counter |
| ShopApp.ShopState.StartupDayCheck | App.tsx:99-117 | on a new day the counter goes back to 1 and the daily statistics are zeroed; on the same day a saved counter that parses is restored and otherwise the counter stays as it was; with nothing saved the current values are stored |
| ShopApp.ShopState.SetShopId | App.tsx:197-201 | the active ID is the upper-cased, trimmed input; it is saved exactly when non-empty; nothing else changes |
| ShopApp.ShopState.OnSnapshot | App.tsx:124-142 | the queue becomes the reconciled snapshot and `inQueue` its length |
| ShopApp.ShopState.ClearQueue | App.tsx:149-151 | leaving shop mode empties the queue and sets `inQueue` to 0 |
| ShopApp.ShopState.IssueCounter | App.tsx:211-229 | with a working store the counter is the next stored value and is written back; on failure the local counter is used and advanced; the saved shop ID and reset day are untouched |
| ShopApp.ShopState.Upload | App.tsx:204-285 | a failed document write changes no document and no statistic and is reported; otherwise the issued code is returned, its pending record stored and `documentsToday` raised by one; the saved shop ID and reset day are untouched |
| ShopApp.ShopState.RecordUpload | App.tsx:269-274 | the record is stored, the local counter advanced and the upload counted for today; the saved shop ID and reset day are untouched |
| ShopApp.ShopState.CompleteDocument | App.tsx:287-316 | an unknown ID or no active shop does nothing; a failed write changes nothing; otherwise the record is stored completed, the document leaves the queue and its wait is added to the statistics |
| ShopApp.ShopState.RecordCompletion | App.tsx:295-310 | the completed record is stored, the document filtered out of the queue, and completions, total wait and counted items raised |
| ShopApp.HalfHourWait | App.tsx:291 | a document completed thirty minutes after its upload waited 30.0 minutes |
| ShopApp.OneCompletionStats | App.tsx:287-316 | after one completion with a 30-minute wait, one item is counted with a total of 30 minutes, while `avgWaitTimeMinutes` stays 0 |
| ShopApp.AverageWaitAfterOneCompletion | components/ShopInterface.tsx:182-184 | after that completion the card shows 0.0h where the intended display is 0.5h |

## Left out

- Network and storage: Firebase and local-storage I/O are not performed. Their outcomes are parameters, and the stores are maps held in the state.
- Concurrency and timing:
  - Concurrent uploads from several browsers are not modelled.
  - The await points between a read and a write are not modelled.
  - The timing of the progress interval is not modelled; its ticks form one loop.
- The snapshot subscription: starting and stopping the listener is left out. `OnSnapshot` is one delivered snapshot, and `ClearQueue` is leaving shop mode or having no shop ID.
- The counter read that never settles: a counter read that neither resolves nor throws would leave the upload waiting forever. Only the resolve and throw outcomes are modelled.
- The duplicate document write (App.tsx:249-266): it writes the record to the same place a second time, with `Date.now()` read again for `uploadTimestamp`, and its own failure is swallowed. The model keeps the first write's record, so a second timestamp a few milliseconds later is not captured.
- Notifications: their texts, toasts, sounds, the new-item flash and console logging are left out, except the messages the form stores.
- Text formatting:
  - `formatFileSize` is left out. The too-large error keeps only the size.
  - `toFixed(1)` on the wait display is left out; the display holds the exact hours.
  - `toLocaleString` in the placeholder content is left out.
  - The placeholder file's content is left out.
- Dates: `new Date()`, `toDateString()` and `Date.now()` are inputs. The two `Date.now()` calls of one completion are read as the same instant.
- `getFileTypeDisplay` (utils/fileUtils) is not part of this model. Its label is the `typeLabel` parameter.
- Files: `FileReader`, `Blob`, `fetch` on the data URL and the download link are left out. A download is its outcome: the saved name, the content type and the document it completes.
- Text.ToUpper: case mapping covers ASCII letters only, not Unicode.
- Text.ToLower: case mapping covers ASCII letters only, not Unicode `toLowerCase`. A file name with a non-ASCII capital in its extension is looked up unchanged.
- Student.ShopNameError: lengths count characters (code points), while JavaScript's `.length` counts UTF-16 code units. A name of two characters outside the Basic Multilingual Plane, such as two emoji, has length 4 in the application and is accepted there; the model refuses it as too short.
- Student.StudentForm.ShopNameChange: its error is ShopNameError's, so the same code-point count applies.
- Student.StudentForm.UploadClick: its three-character check counts code points, not UTF-16 code units, as in ShopNameError.
- ShopView.ShopIdInput: `slice(0, 12)` keeps 12 UTF-16 code units; the model keeps 12 code points. Twelve emoji keep six in the application and all twelve in the model.
- CollectionCodes.ShopPrefix: `substring(0, 4)` takes four UTF-16 code units and can split a surrogate pair; the model takes four code points and cannot show a split pair.
- ShopView.MimeTypeOfExtension: keys inherited from `Object.prototype` (such as `constructor`) are not modelled. Such a lookup would return a function rather than a string.
- ShopApp.RestoredCounter: an unparseable saved counter becomes `NaN` in the application. The model keeps the current counter instead.
- Numbers: they are unbounded integers and exact reals. JavaScript's double precision is not modelled.
- Wait times: `WaitMinutes` is an exact quotient.
- The mode selector, header, footer and other presentational components are not part of this model.

## Findings

| source | as written | input that shows it | evidently intended | confidence | as-written member | corrected member |
|---|---|---|---|---|---|---|
| components/ShopInterface.tsx:182-184 | the average-wait card divides `avgWaitTimeMinutes` by 60, but no handler ever assigns that field (App.tsx:301-306 updates only `totalWaitTime` and the item count) | one document completed 30 minutes after upload: the card shows 0.0h | the mean wait `totalWaitTime / avgWaitTimeCalculatedForItems`, in hours: 0.5h | not executed | ShopApp.AverageWaitAfterOneCompletion | ShopView.AvgWaitDisplayCorrected |
