# Turkish lira price converter — a Dafny model

This project models the core of a browser extension that annotates lira prices
on a classifieds site with their value in another currency, together with the
release script that bumps the version and names the zip archive.

- **Price text** (`PriceText`, `Decimal`). A container's text is reduced to
  digits, `,` and `-`. Then the first comma becomes a point and the result is
  read the way `parseFloat` reads a prefix. So "1.250,50 TL" reads as 1250.50,
  "₺1.000" as 1000, and text without digits as `NaN`.
- **Scanning** (`PriceScan`). Each price container is skipped when it already
  has an annotation. Otherwise it gets exactly one annotation when its text
  parses. The current script multiplies by a USD rate and writes "$… USD". The
  archived script divides by the rate of the selected currency and writes
  "… CUR". The scan is a loop over an array of containers.
- **Mutation watching** (`MutationWatch`). `handleMutations` looks for added
  element nodes that are, or contain, a price container. It then debounces:
  any earlier timer is cleared and one rescan is armed 500 ms later.
- **Current content script** (`CurrentContent`, content.js). The rate is
  cached in two globals for five minutes. A failed fetch falls back to the
  cached rate or to 1.
- **Archived content script** (`ArchivedContent`,
  archives/dist_v1.0.5/content.js). The cache lives in extension storage and
  is judged fresh by the stored rate and time alone. The stored currency overrides the
  one in memory. A successful fetch writes the rate and time back.
  `initialize` loads the stored values before the first scan.
- **Release script** (`Archive`, archive.js). `bumpVersion` splits the
  version on dots and replaces the third part with `parseInt(part) + 1`. It
  writes the same new version into `package.json` and `manifest.json`.
  `prepareFolder` creates the archives folder if it is missing.
  `compressAssets` names the zip `dist_v<version>.zip` after the version it
  reads back.

The network fetch, extension storage, the clock and the file system are
inputs. A fetch is a `FetchOutcome`, either a rate or a failure. Storage is
the `Stored` record read at the call. The time is a number of milliseconds.
Files are a map from path to parsed JSON object. Each stateful part of the
source is a class whose methods are proved against a specification function,
and the properties are proved as lemmas about those functions.

## Model

| member | source | states |
|---|---|---|
| Decimal.LeadingDigitsSpec | content.js:42-44 | the leading-digit count covers only digits and stops at the first non-digit |
| Decimal.NatToStringValue | archive.js:80 | rendering a natural number in decimal and reading the digits back gives the same number |
| Decimal.NatToString | archive.js:80 | the rendering is a non-empty digit string with no leading zero, and it starts with `0` exactly for zero |
| PriceText.StripKeepsOnlyNumeric | content.js:43 | the stripped text is no longer than the input and holds only digits, `,` and `-` |
| PriceText.StripCounts | content.js:43 | every digit, `,` and `-` of the input survives the strip, as many times as it occurred |
| PriceText.StripDistributes | content.js:43 | stripping a concatenation strips each piece, keeping the order |
| PriceText.StripKeepsNumeric | content.js:43 | text made only of digits, `,` and `-` is left unchanged |
| PriceText.StripIdempotent | content.js:43 | stripping twice is stripping once |
| PriceText.IndexOf | content.js:43 | the index found holds the character with no earlier occurrence, and none is found exactly when the character is absent |
| PriceText.ReplaceFirstAt | content.js:43 | the string `replace` changes exactly the first comma into a point, and changes nothing when there is no comma |
| PriceText.ReplaceFirstAfter | content.js:43 | a comma after comma-free text is the one replaced, whatever follows |
| PriceText.SanitizeShape | content.js:43 | the sanitised text holds only digits, `,`, `-` and one point, at the first comma of the stripped text |
| PriceText.StripExample | archives/dist_v1.0.5/content.js:72 | "1.250,50 TL" strips to "1250,50" |
| PriceText.ReplaceExample | archives/dist_v1.0.5/content.js:72 | "1250,50" becomes "1250.50" and "1000" stays |
| PriceText.SanitizeExample | content.js:41-44 | "1.250,50 TL" sanitises to "1250.50" and "₺1.000" to "1000" |
| PriceText.ParseFloatWellFormed | content.js:42-44 | a parsed number has digit-only parts and at least one digit |
| PriceText.ParseFloatDefined | content.js:42-46 | on sanitised text, `parseFloat` gives a number exactly when the text starts with an optional minus and then a digit, or a point and a digit |
| PriceText.ParseFloatInteger | content.js:42-44 | a run of digits parses as that whole number |
| PriceText.ParseFloatDecimal | content.js:42-44 | digits, a point and digits parse as that whole part and fraction |
| PriceText.ParseFloatExample | content.js:42-44 | "1250.50" has the value 1250.5 |
| PriceText.ParseFloatIntegerExample | content.js:42-44 | "1000" has the value 1000 |
| PriceText.ParseFloatNaNExample | content.js:42-46 | a lone minus, a lone point and the empty text are `NaN` |
| PriceText.NoDigitsNoNumber | content.js:41-46 | a container text without any digit never yields a number, so it is never annotated |
| PriceScan.ScanContainers | content.js:35-56 | after the loop every container is exactly what one conversion step makes of the container that was there |
| PriceScan.ConvertOneAppendsAtMostOne | content.js:35-56 | a container gains exactly one annotation, at the end, exactly when it had none and its text parses; otherwise it is unchanged; its text is never changed |
| PriceScan.ScanIdempotent | content.js:36-39 | a second pass at any rate changes nothing |
| PriceScan.RescansKeepFirstPass | archives/dist_v1.0.5/content.js:64-68 | any number of later passes leave the page as the first pass made it |
| PriceScan.AtMostOneAnnotation | content.js:36-39 | a container that started without annotations ends with at most one, however many passes run |
| PriceScan.ConversionInverts | archives/dist_v1.0.5/content.js:75-82 | the annotated amount times the rate (archived) or divided by it (current) is the lira price |
| PriceScan.EndToEndExample | content.js:41-54 | "₺1.000" at 0.03 USD per lira gets one "$ … USD" annotation whose amount is 30 |
| MutationWatch.ShouldConvert | content.js:60-83 | the flag is set exactly when some childList record adds an element that is, or contains, a price container |
| MutationWatch.QualifiesIffSubtree | content.js:69-79 | the class test or the descendant query holds exactly when the node's subtree contains a container |
| MutationWatch.NonElementsNeverTrigger | content.js:68 | batches that add only text or comment nodes never trigger |
| MutationWatch.TriggersSplit | content.js:63-83 | a batch triggers exactly when one of its two halves does |
| MutationWatch.AnnotationAppendsDoNotTrigger | content.js:48-54 | the annotations the scan appends never trigger another scan |
| MutationWatch.BurstCoalesces | content.js:85-89 | triggering batches less than 500 ms apart run no rescan and leave one pending, 500 ms after the last |
| MutationWatch.RescanRunsOnceAfterQuiet | content.js:88 | the pending rescan runs at its deadline, not before, and then nothing is pending |
| MutationWatch.Debouncer.constructor | content.js:87 | no handle is stored and no timer is armed at the start |
| MutationWatch.Debouncer.AtMostOnePending | content.js:85-89 | at most one timer is armed, and one is exactly when a rescan is pending |
| MutationWatch.Debouncer.HandleMutations | content.js:85-89 | a triggering batch clears the stored timer and arms exactly one new one 500 ms later; any other batch changes nothing |
| MutationWatch.Debouncer.Tick | content.js:88 | a due timer fires once and is removed |
| CurrentContent.FreshRateIsReused | content.js:9-11 | a cached rate younger than five minutes is returned with no fetch and no change |
| CurrentContent.StaleCacheFetches | content.js:9-13 | with no cached rate, or one five minutes old or more, a fetch is made |
| CurrentContent.SuccessfulFetchIsCached | content.js:17-20 | a successful fetch returns the fetched rate and caches it with the current time |
| CurrentContent.FailedFetchFallsBack | content.js:21-25 | a failed fetch returns the cached rate, or 1 without one, and leaves the cache alone |
| CurrentContent.SecondCallWithinTtlIsCached | content.js:9-20 | a call less than five minutes after a successful fetch returns the same rate without fetching |
| CurrentContent.SecondCallAfterTtlFetches | content.js:3-13 | a call five minutes or more after a fetch fetches again |
| CurrentContent.RatesComeFromFetches | content.js:5-26 | over any series of calls, every rate returned is 1, the rate cached at the start, or a rate that call or an earlier one actually fetched (it went to the network and the fetch returned that rate) |
| CurrentContent.RatesFromStartAreFetchedOrOne | content.js:1-26 | from page load, every rate returned is 1 or was returned by a fetch that one of the calls up to that one actually issued |
| CurrentContent.ContentScript.constructor | content.js:1-2 | no rate is cached, the fetch time is 0 and nothing is observed at the start |
| CurrentContent.ContentScript.GetExchangeRate | content.js:5-26 | the returned rate, the fetch decision and the new globals are those of the cache specification |
| CurrentContent.ContentScript.ConvertPrices | content.js:28-57 | the rate comes from the cache specification and every container gets the multiply-to-USD step with it |
| CurrentContent.ContentScript.HandleMutations | content.js:60-90 | arms the debounce exactly when the batch triggers |
| CurrentContent.ContentScript.OnTimer | content.js:88 | when the timer is due the scan runs with the looked-up rate on every container; otherwise the cache and the containers are unchanged; observing is kept either way |
| CurrentContent.ContentScript.Initialize | content.js:104-110 | converts the prices on the page and starts observing |
| ArchivedContent.StoredCurrencyOverrides | archives/dist_v1.0.5/content.js:3-33 | a non-empty stored currency replaces the one in memory (initially USD), and any fetch asks for that currency |
| ArchivedContent.FreshStoredRateIsReused | archives/dist_v1.0.5/content.js:19-29 | a stored rate with a stored time less than five minutes old is returned and copied into memory, with no fetch and no write |
| ArchivedContent.RequestIffStale | archives/dist_v1.0.5/content.js:19-34 | a fetch is requested exactly when the stored rate is not fresh, and it asks for the currency selected after the storage read |
| ArchivedContent.FreshMemoryDoesNotPreventFetch | archives/dist_v1.0.5/content.js:20-31 | freshness is judged on storage only: a fresh rate in memory does not spare a fetch when storage has none |
| ArchivedContent.FreshRateIgnoresCurrency | archives/dist_v1.0.5/content.js:15-29 | a fresh stored rate is used with whatever currency is stored now, whichever currency it was fetched for |
| ArchivedContent.SuccessfulFetchIsStored | archives/dist_v1.0.5/content.js:36-46 | a successful fetch sets memory to the rate and the time and writes both to storage, keeping the stored currency |
| ArchivedContent.FailedFetchUsesMemoryOnly | archives/dist_v1.0.5/content.js:47-51 | a failed fetch returns the rate in memory, or 1, and writes nothing |
| ArchivedContent.StaleStoredRateIsNotAFallback | archives/dist_v1.0.5/content.js:47-51 | with nothing in memory a failed fetch gives 1, even though storage holds a stale rate |
| ArchivedContent.SecondCallWithinTtlIsCached | archives/dist_v1.0.5/content.js:19-46 | after a fetch at a nonzero time is written back, a call less than five minutes later returns that rate from storage with no fetch |
| ArchivedContent.SecondCallAfterTtlFetches | archives/dist_v1.0.5/content.js:19-46 | five minutes or more after a fetch was written back, the next call fetches again |
| ArchivedContent.RateWithoutTimeIsNotLoaded | archives/dist_v1.0.5/content.js:138-148 | a stored rate without a stored time (or with time 0) is not loaded by initialize, so when the first fetch fails the scan falls back to 1 |
| ArchivedContent.FirstScanFallsBackToStoredRate | archives/dist_v1.0.5/content.js:138-148 | after initialize has loaded a stale stored rate, a failed first fetch falls back to that rate, not to 1 |
| ArchivedContent.ContentScript.constructor | archives/dist_v1.0.5/content.js:1-3 | no rate in memory, fetch time 0, currency USD, not observing |
| ArchivedContent.ContentScript.GetExchangeRate | archives/dist_v1.0.5/content.js:6-55 | the returned rate, the request, the storage write and the new globals are those of the storage-backed specification |
| ArchivedContent.ContentScript.ConvertPrices | archives/dist_v1.0.5/content.js:57-86 | every container gets the divide step with the looked-up rate and the currency selected after the lookup |
| ArchivedContent.ContentScript.HandleMutations | archives/dist_v1.0.5/content.js:89-119 | arms the debounce exactly when the batch triggers |
| ArchivedContent.ContentScript.OnTimer | archives/dist_v1.0.5/content.js:117 | when the timer is due every container gets the divide step with the looked-up rate and currency, and the storage write is returned; otherwise memory and the containers are unchanged and nothing is written; observing is kept either way |
| ArchivedContent.ContentScript.Initialize | archives/dist_v1.0.5/content.js:133-154 | loads storage into memory, converts the prices with the lookup made from that memory, and starts observing |
| Archive.Split | archive.js:79 | a split has at least one part |
| Archive.SplitPartsLackSep | archive.js:79 | no part of a split contains a dot |
| Archive.JoinSplit | archive.js:79-81 | joining the parts of a split gives the version back |
| Archive.SplitJoin | archive.js:79-81 | splitting dot-free parts that were joined gives the parts back |
| Archive.IntToString | archive.js:80-81 | the rendered number contains no dot, so it stays one version part; it starts with `-` exactly for a negative number, and its digits have no leading zero, as `String(n)` writes them |
| Archive.ParseIntIntToString | archive.js:80 | `parseInt` reads back any integer as rendered |
| Archive.ParseIntLeadingDigits | archive.js:80 | `parseInt` reads the leading digits and ignores what follows them |
| Archive.ParseIntNaN | archive.js:80 | text with no digit after the white space and sign is `NaN` |
| Archive.ParseIntSkipsSpace | archive.js:80 | white space in front of a text changes nothing `parseInt` reads |
| Archive.BumpReplacesPatch | archive.js:79-81 | with three or more parts, only the third changes, to its integer value plus one or "NaN"; the others keep their text and order |
| Archive.BumpIncrementsPatch | archive.js:80 | the new third part reads back as one more than the old one |
| Archive.BumpThreeParts | archive.js:79-81 | a three-part version keeps its first two parts and has its third incremented |
| Archive.BumpTwoParts | archive.js:79-81 | a two-part version gets "NaN" appended as a third part |
| Archive.BumpOnePart | archive.js:79-81 | a one-part version gets an empty second part and "NaN" as the third |
| Archive.IncrementDigits | archive.js:80 | a patch of digits is replaced by the next number |
| Archive.IncrementExamples | archive.js:80 | "5" becomes "6", "3-beta" becomes "4" and "x" becomes "NaN" |
| Archive.BumpExamples | archive.js:79-81 | "1.0.5" becomes "1.0.6", "1.0.3-beta" becomes "1.0.4" and "1.0.x" becomes "1.0.NaN" |
| Archive.ShortVersionExamples | archive.js:79-81 | "1.0" becomes "1.0.NaN" and "1" becomes "1..NaN" |
| Archive.PackageIsNotManifest | archive.js:5-6 | the two records are distinct files |
| Archive.BumpWritesBoth | archive.js:83-89 | both records receive the same bumped version |
| Archive.BumpChangesOnlyVersions | archive.js:83-89 | no file appears or disappears, other files are untouched, and in the two records every key other than `version` is unchanged |
| Archive.ArchiveNamedAfterBump | archive.js:25-30 | run from the script's directory, the zip in the archives folder is named after the bumped version |
| Archive.ArchiveNameFromOtherDirectory | archive.js:17-20 | run from another directory, the name comes from that directory's package record, which the bump does not touch |
| Archive.PrepareIdempotent | archive.js:9-15 | preparing twice leaves the same folders as once, and the folder exists afterwards |
| Archive.Workspace.constructor | archive.js:1-7 | the script directory, working directory, files and folders are those given |
| Archive.Workspace.PrepareFolder | archive.js:9-15 | adds the archives folder only if it is missing, returns its path, and touches no file |
| Archive.Workspace.BumpVersion | archive.js:73-92 | returns the bumped version, or the exception, and leaves the files as the bump specification says |
| Archive.Workspace.CompressAssets | archive.js:24-30 | bumps, prepares the folder, and returns the name the specification gives, or the exception |

## Left out

- PriceText.ParseFloat: it covers only the sanitised alphabet (digits, `,`, `-` and the point). The leading white space, `+`, exponents and `Infinity` that `parseFloat` also accepts cannot occur there and are not modelled.
- Logging is not modelled: `console.error` on a failed fetch in both content scripts, and the `console.log` messages of the release script.
- Floating point: `parseFloat` is modelled exactly on decimal text, with the value as a real. `toFixed(2)` rounding and the printed digits of the annotation are not modelled. An annotation holds the exact amount and its currency.
- Rates are positive reals. A zero, missing or non-numeric rate in the API response (`data.rates.USD` or `data.rates.TRY` undefined) is not modelled.
- The `lastUpdateDate` display string written to storage is not modelled. Only the options page reads it, and that page is not modelled.
- The network fetch, `chrome.storage.local` and `Date.now()` are inputs. Concurrent lookups and overlapping `convertPrices` passes in flight at the same time, and storage changing between the two reads of one `initialize`, are not modelled.
- `MutationObserver` registration, `startObserving` and the `readyState`/`DOMContentLoaded` choice are reduced to an `observing` flag. The DOM is a tree of element, text and comment nodes.
- CurrentContent.ContentScript.Initialize: `convertPrices()` is not awaited, so the real DOM pass runs after observing has started. The model does the pass first. Absent page mutations while the first lookup is pending, this does not change the outcome, because the annotations the pass appends never trigger a rescan (`MutationWatch.AnnotationAppendsDoNotTrigger`). A qualifying insertion in that window schedules a second `convertPrices` 500 ms later, which then runs concurrently with the first; such overlapping passes fall under the concurrency line above.
- ArchivedContent.ContentScript.Initialize: the same ordering remark applies.
- The options page script (archives/dist_v1.0.5/options.js) is not part of this model. It only wires UI elements to a fetch and to storage.
- The zip contents, the archiver library, the compression level and the close/error callbacks are not modelled. The model stops at the output file name.
- JSON is a map from key to value. Formatting on write (`JSON.stringify` with two-space indent) and parse errors are not modelled.
- Archive.ParseInt: only ASCII white space, no-break space and the byte-order mark are skipped. Other Unicode space characters are not.
- Archive.IntToString: version numbers are unbounded integers. Doubles above 2^53 and the exponent notation `String` uses from 10^21 are not modelled.
- Archive.PathJoin: `path.join` normalisation (`..`, doubled or trailing slashes) is not modelled. Paths are joined with one `/`.
- Archive.ArchiveNamedAfterBump: it holds only when the working directory is the script's own directory. `getVersion` reads `package.json` relative to the working directory, while the bump writes next to the script. The other case is stated by `Archive.ArchiveNameFromOtherDirectory`.
