# Key custody: a verified model

The application tracks physical keys. Each key has a record in a hosted
`barcodes` collection, carrying a barcode string of the form
`company-LOCATION-keyNo`. A guard signs a key out (a *draw*) or back in (a
*return*) with a two-step scan: first the guard's NRIC identity card, then the
key's barcode. The scan stamps the key's record, and the dashboard derives
from those stamps whether the key is drawn out. This project models the rules
inside that flow:

- **Key records** (`BarcodeService`): the record shape and the `noOfKeys`
  default. Lookup by barcode string is a first-match search. The timestamp
  update is a method on a class holding the record sequence.
- **Identity masking** (`LoggingService`): the masking of an NRIC before it is
  stored in an activity log entry.
- **Dashboard** (`Dashboard`): the drawn/available rule, the search, company
  and status filter pipeline, and the counters. There are also lemmas relating
  updates, lookups and status.
- **Activity log** (`Logs`): the search, company and action pipeline and the
  counters.
- **Registration screen** (`RegisterKey`):
  - the key-number input rule, with a model of `Number.parseInt`;
  - the location input rule;
  - the composition of a new record;
  - the company filter and the print-selection set;
  - the screen's state as a class.
- **Scanner** (`Scanner`): the NRIC pattern, the default camera, and the
  two-step state machine as a class driven by decode events.
- **Scan screen** (`ScanPage`): the update-then-record ordering and the
  bounded list of recent scans.

`Seqs` and `Text` hold the array and string operations the screens use:
`filter`, `map`, `slice`, `find`, `new Set`, case mapping, `includes` and
`padStart`.

Timestamps are integers. Each `new Date()` reading becomes a parameter:
`updateBarcodeTimestamp` takes two readings, and the scan screen takes one
more. Store and camera calls are not modelled. Their outcomes are parameters
instead: success flags for the store's save, reload, delete, read and write
requests, the listed devices, decoded texts and decoder errors.

The comment at lib/barcode-service.ts:42 says the count defaults to `"1"`
"if missing". The code on that line and on line 79 writes
`data.noOfKeys || "1"`, so an *empty* string is reported as `"1"` too. The
model follows the code (`BarcodeService.ReportedNoOfKeys`).

## Model

| member | source | states |
|---|---|---|
| LoggingService.MaskNric | lib/logging-service.ts:49-52 | A token shorter than 4 characters masks to exactly `*****`. A longer one masks to `*****` followed by its last four characters, 9 characters in all. Every result starts with the five-star prefix. |
| LoggingService.MaskSameSuffix | lib/logging-service.ts:51 | Two tokens of length at least 4 with the same last four characters mask identically. |
| LoggingService.MaskIdempotentForLong | lib/logging-service.ts:49-52 | For tokens of length at least 4, masking twice equals masking once. |
| LoggingService.MaskNotIdempotentForShort | lib/logging-service.ts:50 | For short tokens, masking is not idempotent: the five-star mask re-masks to nine stars. |
| BarcodeService.ReportedNoOfKeys | lib/barcode-service.ts:79 | A missing or empty count is reported as `"1"`. A non-empty count passes through. The result is never empty. |
| BarcodeService.ToSaved | lib/barcode-service.ts:74-83 | The returned record copies every stored field, with the count defaulted. |
| BarcodeService.FirstMatch | lib/barcode-service.ts:68 | The position found holds the code and no earlier position does. No position is found exactly when no record has the code. |
| BarcodeService.FirstMatchUnique | lib/barcode-service.ts:68 | At most one position is the first match. |
| BarcodeService.LookupBarcode | lib/barcode-service.ts:68-83 | Null exactly when no record has the code. Otherwise the result is the projection of the first record, in collection order, with that code, so its barcode string is the queried one. |
| BarcodeService.GetBarcodeByCode | lib/barcode-service.ts:63-88 | Rejects, with a store error, exactly when the read fails. Otherwise it answers null exactly when no record has the code, and else the projection of the first record with that code. |
| BarcodeService.ApplyUpdate | lib/barcode-service.ts:111 | `updateDoc` merges the update: `lastUpdate` is always set, `lastReturn` and `lastDraw` take the update's value only when it carries one, and no other field changes. |
| BarcodeService.ApplyUpdateIdempotent | lib/barcode-service.ts:111 | Merging the same update twice is merging it once. |
| BarcodeService.UpdateFor | lib/barcode-service.ts:101-109 | The update built for an action, merged into any record, gives a `Stamped` record. |
| BarcodeService.StampedDetermines | lib/barcode-service.ts:101-111 | `Stamped` (`lastUpdate` set, a sign-in sets `lastReturn` and keeps `lastDraw`, a sign-out sets `lastDraw` and keeps `lastReturn`, nothing else changes) fixes the new record: two records stamped from the same record with the same action and readings are equal. |
| BarcodeService.Update | lib/barcode-service.ts:90-111 | Fails with "Barcode not found" exactly when no record has the code. Otherwise only the first matching record changes, and it is `Stamped`: `lastUpdate` is set, a sign-in sets `lastReturn` and keeps `lastDraw`, a sign-out sets `lastDraw` and keeps `lastReturn`, and no other field changes. |
| BarcodeService.UpdateThenLookup | lib/barcode-service.ts:95-111 | After a successful update, the lookup by the same code finds the stamped record at the same first-match position. |
| BarcodeService.BarcodeStore.UpdateBarcodeTimestamp | lib/barcode-service.ts:90-115 | Builds the update field by field and writes it into the stored sequence. It fails with "Barcode not found" exactly when the read succeeds and no record has the code. It succeeds exactly when the read and the write succeed and some record has the code. A failure of any kind leaves the collection unchanged. A success leaves the collection `Update` describes. |
| Dashboard.IsDrawn | app/dashboard/page.tsx:74 | A key is drawn only if a draw is recorded. A draw with no return is drawn. A return stamped at or after the draw (equal stamps included) makes the key not drawn. |
| Dashboard.MatchesSearch | app/dashboard/page.tsx:58-62 | The search matches on location or barcode string ignoring case, or on the key number as typed. The empty term matches every record. |
| Dashboard.KeyStatus | app/dashboard/page.tsx:82-91 | "drawn" exactly when the filter's `isDrawn` holds. It is "available" with no draw recorded, and when the draw is no later than the return (equal stamps included). |
| Dashboard.PipelineIsOneFilter | app/dashboard/page.tsx:53-79 | The search, company and status stages together are one filter by the conjunction of the three conditions. |
| Dashboard.FilterBarcodes | app/dashboard/page.tsx:53-79 | The result is an order-preserving subsequence holding exactly the records that pass all three controls. With an empty search and both selects on "all" it is the input. A company filter keeps only that company, and "drawn" keeps only drawn keys. |
| Dashboard.FilterBarcodesIdempotent | app/dashboard/page.tsx:53-79 | Filtering the filtered list again with the same controls changes nothing. |
| Dashboard.SearchFindsLocation | app/dashboard/page.tsx:60 | A record whose location contains the term is kept by the search. |
| Dashboard.SearchIgnoresTermCase | app/dashboard/page.tsx:60-62 | The location and barcode-string searches give the same answer for a term and its upper-cased form. |
| Dashboard.AvailablePlusDrawnIsTotal | app/dashboard/page.tsx:114-131 | The Available count plus the Drawn Out count equals Total Keys. |
| Dashboard.Companies | app/dashboard/page.tsx:93 | Lists each company occurring among the records exactly once, and nothing else. |
| Dashboard.StatusAfterUpdate | app/dashboard/page.tsx:74 | After a sign-in at time t, a key is drawn only if its draw was strictly later than t. After a sign-out at t, it is drawn unless a return at or after t is recorded. |
| Dashboard.SignOutThenSignInIsAvailable | lib/barcode-service.ts:105-109 | A sign-out followed by a sign-in at a time no earlier leaves the key available under the dashboard rule. |
| Logs.MatchesSearch | app/logs/page.tsx:37-43 | The search matches on location, barcode string or masked token ignoring case, or on the key number as typed. The empty term matches every entry. |
| Logs.PipelineIsOneFilter | app/logs/page.tsx:32-56 | The search, company and action stages together are one filter by the conjunction of the three conditions. |
| Logs.FilterLogs | app/logs/page.tsx:32-56 | The result is an order-preserving subsequence holding exactly the entries that pass all three controls. It is the input for default controls. A company filter keeps only that company. |
| Logs.ActionFilterKeepsExactly | app/logs/page.tsx:52-54 | The action filter alone keeps exactly the entries with that action, in order. |
| Logs.FilterLogsIdempotent | app/logs/page.tsx:32-56 | Applying the pipeline twice gives the same result as applying it once. |
| Logs.SearchFindsMaskedNric | app/logs/page.tsx:42 | An entry whose masked token contains the term is kept by the search. |
| Logs.SignInsPlusSignOutsIsTotal | app/logs/page.tsx:83-91 | Sign-ins plus sign-outs equals Total Activities. |
| Logs.UniqueUsers | app/logs/page.tsx:98 | The number of distinct masked tokens. It is at most Total Activities, and at least 1 for a non-empty log. |
| Logs.Companies | app/logs/page.tsx:59 | Lists each company occurring in the log exactly once, and nothing else. |
| RegisterKey.TrimStart | app/register-key/page.tsx:267 | `parseInt` skips leading white space: the result is a suffix of the input, every dropped character is white space, and the result does not start with white space. |
| RegisterKey.DigitRun | app/register-key/page.tsx:267 | The length of the leading run of digits in the radix. |
| RegisterKey.ParseInt | app/register-key/page.tsx:267 | `Number.parseInt` without a radix. It gives NaN (none) for input that is empty after trimming, and for input whose first character after trimming is not a digit or a sign. A negative result comes only from a leading `-`. |
| RegisterKey.ExponentIsIgnored | app/register-key/page.tsx:267 | `parseInt` stops at the first non-digit: `"1e5"` is 1. |
| RegisterKey.HexIsRead | app/register-key/page.tsx:267 | `parseInt` reads a `0x` prefix as hexadecimal: `"0x3E7"` is 999. |
| RegisterKey.KeyNoValue | app/register-key/page.tsx:267 | `Number.parseInt(value) \|\| 0`: input that is empty after trimming gives 0, and a negative value comes only from a leading `-`. |
| RegisterKey.KeyNoAccepted | app/register-key/page.tsx:266-270 | The rule accepts a parsed value in [0, 999]. Any edit that does not parse counts as 0 and is accepted, and so is the empty edit. |
| RegisterKey.NonDecimalKeyNosAccepted | app/register-key/page.tsx:266-270 | `"1e5"` and `"0x3E7"` are accepted and kept as typed, though neither is a decimal number up to 999. |
| RegisterKey.DecimalValueBound | app/register-key/page.tsx:267 | A string of n decimal digits has a value below 10^n. |
| RegisterKey.DecimalDigitsUnsigned | app/register-key/page.tsx:267 | A non-empty decimal digit string reads as its decimal value. |
| RegisterKey.DecimalDigitsParse | app/register-key/page.tsx:267 | `parseInt` of a non-empty decimal digit string is its decimal value. |
| RegisterKey.KeyNoDigitsAccepted | app/register-key/page.tsx:266-270 | On digit strings, the key-number rule accepts exactly the values up to 999, leading zeros allowed. |
| RegisterKey.ShortKeyNoAccepted | app/register-key/page.tsx:266-270 | Every string of at most three digits is accepted, including the empty one. |
| RegisterKey.NegativeKeyNoRefused | app/register-key/page.tsx:266-270 | A negative number is refused. |
| RegisterKey.LocationInput | app/register-key/page.tsx:255 | The length is min(8, input length). The result is that prefix of the upper-cased input, with no lower-case letter. |
| RegisterKey.LocationInputIsStoredForm | app/register-key/page.tsx:70 | Upper-casing a location typed through the input changes nothing, so the stored location is what was typed. |
| RegisterKey.FormatKeyNo | app/register-key/page.tsx:65 | The key number is left-padded with `0` to length 2. A longer key number is unchanged. |
| RegisterKey.MakeDraft | app/register-key/page.tsx:65-74 | The stored location is upper-cased and the key number is padded. The barcode string is the company, the upper-cased location and the padded key number, joined by `-`. |
| RegisterKey.CanAdd | app/register-key/page.tsx:61 | Adding is allowed exactly when the preview is not empty and the count is not empty. |
| RegisterKey.Preview | app/register-key/page.tsx:221-222 | The preview is empty exactly when company, location or key number is empty. Otherwise it starts with the company and `-`, and ends with `-` and the padded key number. |
| RegisterKey.PreviewIsSavedCode | app/register-key/page.tsx:221-222 | Whenever adding is allowed, the live preview equals the barcode string that will be saved. |
| RegisterKey.SplitAtFirstDash | app/register-key/page.tsx:66 | Two joins at a first `-` are equal only if both parts are. |
| RegisterKey.BarcodeCodeDetermines | app/register-key/page.tsx:66 | With no `-` in company or location, the barcode string determines the company, the location and the padded key number. |
| RegisterKey.PaddedKeyNosCollide | app/register-key/page.tsx:65-66 | Key numbers `7` and `07` give the same barcode string. Nothing keeps barcode strings unique. |
| RegisterKey.CompanyFiltered | app/register-key/page.tsx:43-49 | "all" shows every record. Any other value shows exactly that company's records, as an order-preserving subsequence. |
| RegisterKey.Toggled | app/register-key/page.tsx:106-116 | Flips the membership of the toggled id and of no other id. |
| RegisterKey.ToggleTwice | app/register-key/page.tsx:106-116 | Toggling twice restores the selection. |
| RegisterKey.SelectAllToggled | app/register-key/page.tsx:118-124 | Clears the selection when its size equals the shown count. Otherwise the selection becomes exactly the shown ids. |
| RegisterKey.SelectAllThenDeselect | app/register-key/page.tsx:118-124 | For shown records with distinct ids, one press selects all of them and the next press clears the selection. |
| RegisterKey.ToPrint | app/register-key/page.tsx:127 | The shown records whose id is selected, in shown order. Empty for an empty selection. |
| RegisterKey.RegisterKeyPage.SetLocation | app/register-key/page.tsx:255 | The location becomes the input rule's result, at most 8 characters and already upper-cased. |
| RegisterKey.RegisterKeyPage.SetKeyNo | app/register-key/page.tsx:266-270 | The key number takes the edit only when the rule accepts it, and is unchanged otherwise. |
| RegisterKey.RegisterKeyPage.SetNoOfKeys | app/register-key/page.tsx:282 | The count is stored upper-cased. |
| RegisterKey.RegisterKeyPage.SetCompany | app/register-key/page.tsx:239 | The company select sets the company and nothing else. |
| RegisterKey.RegisterKeyPage.SetFilterCompany | app/register-key/page.tsx:341 | The filter select sets the filter and nothing else. |
| RegisterKey.RegisterKeyPage.LoadSavedBarcodes | app/register-key/page.tsx:51-58 | A successful load replaces the list. A failed one leaves it. |
| RegisterKey.RegisterKeyPage.AddBarcode | app/register-key/page.tsx:60-90 | Nothing changes when a field is empty or the save fails. Otherwise the composed record is saved, the four fields are cleared, and after a successful reload the record heads the list. |
| RegisterKey.RegisterKeyPage.DeleteBarcode | app/register-key/page.tsx:92-104 | A failed delete changes nothing. A successful one removes exactly that id from the selection, and the reload drops the record. |
| RegisterKey.RegisterKeyPage.ToggleBarcodeSelection | app/register-key/page.tsx:106-116 | The selection becomes `Toggled` of the previous one. |
| RegisterKey.RegisterKeyPage.ToggleSelectAll | app/register-key/page.tsx:118-124 | The selection becomes `SelectAllToggled` of the previous one and the shown records. |
| RegisterKey.RegisterKeyPage.PrintSelectedBarcodes | app/register-key/page.tsx:126-128 | Picks `ToPrint` of the shown records and the selection, and opens a window only when that list is not empty. |
| Scanner.Matches | components/scanner.tsx:69 | `test` for an anchored pattern such as `NricPattern` (`^[STFG]\d{7}[A-Z]$`): a matched text has the pattern's length. |
| Scanner.IsValidNric | components/scanner.tsx:69 | The direct statement of a well-formed NRIC. Every character of one is an upper-case letter or a digit. |
| Scanner.MatchesPositionwise | components/scanner.tsx:69 | An anchored pattern matches a text exactly when both have the same length and every character is in its position's class. |
| Scanner.NricPatternAccepts | components/scanner.tsx:69 | The pattern accepts exactly: length 9, one of S/T/F/G, seven digits, then an upper-case letter. |
| Scanner.ValidNricMask | lib/logging-service.ts:51 | A well-formed NRIC masks to the five stars followed by its last four characters. |
| Scanner.ValidNricExample | components/scanner.tsx:69 | `S1234567A` is accepted and masks to `*****567A`. A lower-case initial or a missing digit is refused. |
| Scanner.DeviceLabel | components/scanner.tsx:40 | A device keeps its own label. An unlabelled one shows `Camera` and the first eight characters of its id. |
| Scanner.DefaultCamera | components/scanner.tsx:44-50 | The first device whose lower-cased label contains "back", "environment" or "rear"; otherwise the first device; none for an empty list. |
| Scanner.BarcodeScanner.LoadDevices | components/scanner.tsx:33-58 | A failed listing changes nothing. Otherwise the devices get display labels and the default camera is selected. |
| Scanner.BarcodeScanner.OnDecoded | components/scanner.tsx:71-91 | While listening in the NRIC step, a well-formed NRIC is kept and the item step begins, still scanning. Any other text changes nothing. In the item step, any text becomes the key barcode and scanning stops. The invariant is kept. |
| Scanner.BarcodeScanner.OnDecodeError | components/scanner.tsx:92-97 | An error other than "not found" while listening stops the scan. Otherwise nothing changes. |
| Scanner.BarcodeScanner.StartScan | components/scanner.tsx:110-128 | With no camera selected nothing changes. Otherwise both results are cleared, the step is NRIC, and scanning starts. |
| Scanner.BarcodeScanner.StopScan | components/scanner.tsx:130-137 | The decoder is released and scanning stops. |
| Scanner.BarcodeScanner.SelectCamera | components/scanner.tsx:139-145 | Selects the camera and stops a running scan. |
| Scanner.BarcodeScanner.RescanNric | components/scanner.tsx:147-151 | Forgets the NRIC and returns to the NRIC step. |
| Scanner.BarcodeScanner.RescanItem | components/scanner.tsx:153-166 | With no camera selected nothing changes. Otherwise the key barcode is cleared and scanning resumes in the item step. |
| Scanner.BarcodeScanner.Reset | components/scanner.tsx:168-175 | Leaves scanning stopped, both results cleared and the step NRIC. |
| Scanner.BarcodeScanner.SetAction | components/scanner.tsx:338 | Sets the chosen action. |
| Scanner.BarcodeScanner.Submit | components/scanner.tsx:177-183 | Submits exactly when both results are present, handing over the NRIC, the key barcode and the action, and then resets. The submitted NRIC is always well formed. Otherwise nothing changes. |
| ScanPage.PushRecent | app/scan/page.tsx:29 | The new scan heads the list. The length is 1 + min(9, previous length), never more than 10. The tail is the previous list's prefix. |
| ScanPage.PushAllKeepsLatestTen | app/scan/page.tsx:29 | Any series of successful submissions leaves the ten most recent scans, newest first, followed by what remains of the earlier list. |
| ScanPage.ScanScreen.HandleScanSubmit | app/scan/page.tsx:19-36 | The update runs first. It succeeds exactly when the store's read and write succeed and the code is known. On success the store is stamped as `Update` describes and the scan is pushed. On failure neither the store nor the list changes. |
| Seqs.Filter | app/dashboard/page.tsx:68 | `filter` keeps, in order, exactly the elements satisfying the predicate. |
| Seqs.FindFirst | lib/barcode-service.ts:68 | `find` gives the first position satisfying the predicate, or none when no element does. |
| Seqs.Take | app/scan/page.tsx:29 | `slice(0, n)` is the prefix of length min(n, length). |
| Seqs.FirstIndex | app/logs/page.tsx:98 | The position of the first occurrence of a value: it holds the value and no earlier position does. |
| Seqs.Distinct | app/logs/page.tsx:98 | `Array.from(new Set(s))` holds each element of `s` once and nothing else, in order of first occurrence. |
| Seqs.DistinctOf | app/logs/page.tsx:98 | `Array.from(new Set(map))` holds exactly the mapped values, each once, in order of first occurrence, and its length is the number of distinct values. |
| Text.PadStart | app/register-key/page.tsx:65 | `padStart` keeps the string as a suffix and fills the front with the pad character up to the target length. |

## Left out

- Hosted store I/O is not modelled: `addDoc`, `getDocs`, `updateDoc`, `deleteDoc`, `onSnapshot`, `logActivity` and `subscribeToLogs`. The collection is an in-memory sequence, with success flags for the requests that can fail. The store's own error is not modelled; `BarcodeService.StoreError` stands for any of them. The server's `orderBy` sorting and `serverTimestamp` are not modelled either.
- `RegisterKey.RegisterKeyPage.AddBarcode`: the reload after a save is modelled as the saved record prepended to the list. That is the newest-first order the store returns only while the list already equals the store's contents. It does not after an earlier failed load left the list stale or empty, and other clients' concurrent writes are not modelled.
- `RegisterKey.RegisterKeyPage.DeleteBarcode`: the reload after a delete is modelled as the old list minus the deleted id. That equals the real reload only while the list already equals the store's contents. It does not after an earlier failed load, and concurrent writes are not modelled.
- No activity log entry is written after a scan, because the scan screen calls only the timestamp update. Masking is modelled as the function it is.
- Camera and decoder plumbing is not modelled: `BrowserBarcodeReader`, device listing, `decodeFromInputVideoDevice` and `reset`. Decoded texts and errors are input events instead.
- The scanner's `active` flag is not modelled; it drops results of an effect already cleaned up. `Scanner.BarcodeScanner.OnDecoded` assumes each event comes from the current loop.
- The `setTimeout` restart in `handleCameraSelection` is not modelled; `Scanner.BarcodeScanner.SelectCamera` only stops, and the restart is a later `StartScan`.
- The zoom controls are not modelled, because they are floating-point styling only. The captured video element is not modelled either.
- The print window's HTML, barcode rendering and `window.print` are not modelled. Only the choice of records to print is.
- `components/barcode-generator.tsx`, `components/rank-dropdown.tsx`, navigation, layout and loading screens are not part of this model: they are UI only.
- Toasts, console logging, the `isLoading` flag and `Date` formatting are not modelled.
- The `useEffect` scheduling that recomputes filtered lists is not modelled. Filtered lists are functions of the current state (`RegisterKey.RegisterKeyPage.Shown`).
- The `uniqueCompanies` list of the registration screen is not modelled. It is the same computation as `Dashboard.Companies`.
- String lengths and slices count Unicode scalar values (Dafny characters), not UTF-16 code units as `length`, `slice` and `padStart` do. The two differ for characters outside the Basic Multilingual Plane: a token of two emoji has length 4 in the browser and 2 here. This affects `LoggingService.MaskNric`, `RegisterKey.FormatKeyNo`, `RegisterKey.LocationInput` and `Scanner.DeviceLabel`.
- Case mapping (`toLowerCase`, `toUpperCase`) is modelled on ASCII letters only. The search, location and count rules therefore do not cover other scripts.
- `RegisterKey.ParseInt`: white space is the fixed list of the current Unicode space separators, line terminators, BOM and the ASCII controls; a later Unicode version that adds a space separator is not followed. Values are exact integers, with no floating-point rounding for very long digit strings.
- The input element's own `maxLength` and `type="number"` filtering in the browser is not modelled. The handlers are modelled on whatever text reaches them.
- UI gating of buttons is not modelled. Every handler is callable in every state, and its contract covers each state.
