# NFTScanner core in Dafny

This project models the deterministic core of NFTScanner, a command-line tool that scans NFT
collections on Ethereum-compatible chains. The model covers five parts of the tool:

- **Rarity scoring** (`Scanner`, from `src/scanner.js`). `analyzeRarity` makes two passes over a
  sample of marketplace assets. The first pass counts every trait key `trait_type:value`. The
  second pass scores each asset as the sum, over its traits, of the inverse frequency
  `total / count`. Scores are exact `real`s.
- **Holder aggregation** (`Blockchain`, from `src/blockchain.js`). `getHolders` asks the ERC-721
  `ownerOf` of token ids `1, 2, …` up to `min(maxTokens, 10000)` and stops at the first failed
  lookup. It counts the tokens of each owner in an insertion-ordered map. It then sorts the
  holders by count, descending and stably.
- **IPFS gateway failover and metadata enrichment** (`Metadata`, from `src/metadata.js`).
  `MetadataFetcher` keeps the index of the gateway that last answered in a mutable field. It
  probes the gateways round-robin from that index. It resolves `ipfs://` and `http` URIs,
  merges the fetched metadata into an asset, and enriches a list of assets batch by batch.
- **Error classification and retry** (`Errors`, from `src/errors.js`). `handleApiError` maps an
  HTTP or connection failure to one of the error classes, each with its fixed code. `retry`
  re-runs an operation after a rate-limit error or a server error (status 500 or above). It
  waits for the server's `Retry-After` delay-seconds (section 10.2.3 of RFC 9110), or otherwise
  backs off exponentially.
- **String helpers** (`Utils`, from `src/utils.js`). These are the Ethereum address check, the
  address shortener, and the text `exportToCSV` builds. That text follows the quoting of
  section 2 of RFC 4180 for `,` and `"`.

The network and the chain are parameters:

- `ownerOf` is a function from token id to an optional owner.
- The HEAD probe, the metadata GET and `getTokenMetadata` are the fields of a `Network` value.
- The operation that `retry` wraps is a function from attempt number to outcome.
- The sleeps are returned as lists of waits.

Where the source updates state, the model does the same:

- `MetadataFetcher` is a class whose methods update `currentGatewayIndex`.
- `analyzeRarity`, `getHolders`, `batchEnrichAssets`, `retry` and the CSV builder are loops.

Each of these methods is proved equal to a specification function. The lemmas state the
properties of those functions.

A line break inside a CSV value is written without quotes. `UtilsFacts.LineBreakSplitsRow`
shows such a row spanning two lines. `UtilsFacts.OneLinePerRow` proves one line per row only
for values without line breaks.

## Behaviour of the code worth knowing

- **Gateway index.** The remembered gateway index counts from 0. When the first gateway fails,
  the second answers 404 and the third answers 200, the index becomes 2
  (`MetadataFacts.ThirdGatewayAnswers`).
- **Which errors are retried.** Only a `RateLimitError`, or a `NetworkError` whose original
  response has a status of 500 or above, is retried. A timeout or an `ENOTFOUND` carries no
  response, so it is rethrown at once (`ErrorsFacts.ClassifiedRetryable`).
- **Error kinds.** There is no separate error class for authentication or server failures.
  Statuses 401, 403, 500, 502 and 503 all become a `NetworkError`.
- **Missing collection.** A status of 404 becomes a `ContractError` thrown without an
  address, so its `contractAddress` is null.
- **Batch enrichment.** A missing asset in a batch makes `batchEnrichAssets` reject once the
  batch has settled, and a batch size of 0 or less never ends (see "## Findings").

## Model

| member | source | states |
|---|---|---|
| Scanner.CountTraits | src/scanner.js:41-51 | the first pass leaves, for every key, the number of occurrences of that key over all traits of all assets (absent traits count nothing) |
| Scanner.ScoreTraits | src/scanner.js:54-61 | the score accumulated as `1 / (count / total)` per trait equals the sum of the contributions `total / count` |
| Scanner.AnalyzeRarity | src/scanner.js:40-70 | one result per asset, in input order, carrying `token_id`, the name and the traits unchanged, with the two-pass score; every score is non-negative |
| Scanner.TraitsScore | src/scanner.js:54-61 | the sum of contributions is non-negative, and positive when there is at least one trait |
| Scanner.CountPositive | src/scanner.js:42-58 | a trait of an asset of the sample has count at least 1, so the division never sees zero |
| Scanner.CountedTraitsPositive | src/scanner.js:55-59 | every key looked up while scoring an asset of the sample has a positive count |
| Scanner.KeyCountPositive | src/scanner.js:46-48 | a trait of a list is counted at least once in that list |
| Scanner.InverseFrequency | src/scanner.js:58-59 | `1 / (count / total)` is exactly `total / count` |
| Scanner.ScoreSign | src/scanner.js:54-59 | a score is non-negative, and positive exactly when the asset has traits |
| Scanner.NoTraitsScoreZero | src/scanner.js:54-61 | an asset whose traits are absent or empty scores 0 |
| Scanner.KeySharesCount | src/scanner.js:44-59 | summing a share over every occurrence of a key in a sample is the count times the share |
| Scanner.OccurrenceSharesCount | src/scanner.js:46-48 | the same for the traits of one asset |
| Scanner.RepeatTimes | src/scanner.js:56-59 | adding a contribution `n` times is `n` times the contribution |
| Scanner.RepeatAdd | src/scanner.js:56-59 | repeated additions split over a sum of counts |
| Scanner.KeySharesTotal | src/scanner.js:44-59 | the contributions of one key over all its occurrences add up to exactly the sample size |
| Scanner.KeyCollision | src/scanner.js:47 | traits `("a:b","c")` and `("a","b:c")` share the key `a:b:c` |
| Scanner.ThreeAssetExample | src/scanner.js:42-59 | the sample red, red, blue scores 1.5, 1.5 and 3.0 |
| Scanner.RepeatedTraitExample | src/scanner.js:46-48 | a trait repeated inside one asset counts once per occurrence |
| Blockchain.GetHolders | src/blockchain.js:78-105 | without a contract the result is empty; otherwise ids `1, 2, …` are queried in order until the first failure or the limit, and the result is the stably sorted tally of the owners found: sorted non-increasing, each address once, every count at least 1 and equal to that owner's number of tokens among the scanned ones, counts summing to the number of successful lookups |
| Blockchain.CountOwners | src/blockchain.js:85-93 | the loop's map equals the tally of the scanned owners, and the ids asked are `1..n` followed by the failing id when the scan stops before the limit |
| Blockchain.ScanFromFacts | src/blockchain.js:85-92 | the scan holds the owner of each id it covers, covers no id past the limit, and stops early only at a failed lookup |
| Blockchain.ScanStep | src/blockchain.js:86-92 | a failed lookup ends the scan; a successful one adds its owner and continues with the next id |
| Blockchain.IdsStep | src/blockchain.js:85 | the queried ids grow by the next id |
| Blockchain.TallyStep | src/blockchain.js:88-89 | counting one more owner is `set(o, (get(o) or 0) + 1)` on the map so far |
| Blockchain.AddressesCons | src/blockchain.js:95-98 | the addresses of the entries split at the head |
| Blockchain.MapGetPresent | src/blockchain.js:88 | `get` finds a value exactly for the addresses in the map |
| Blockchain.MapSetAddresses | src/blockchain.js:89 | `set` keeps the key order and appends a new key at the end |
| Blockchain.MapGetSet | src/blockchain.js:88-89 | after `set(a, v)`, `get(a)` is `v` and every other key is unchanged |
| Blockchain.MapSetSum | src/blockchain.js:89 | `set` changes the total count by the new value minus the old one |
| Blockchain.MapSetPositive | src/blockchain.js:89 | `set` with a positive value keeps every count positive |
| Blockchain.UniqueAppend | src/blockchain.js:81 | appending a new address keeps addresses distinct |
| Blockchain.FirstSeenFacts | src/blockchain.js:81-98 | the first-occurrence order is duplicate-free and has the same elements as the owners |
| Blockchain.TallyAddresses | src/blockchain.js:81-98 | the map's keys are the owners in order of first encounter |
| Blockchain.TallyCounts | src/blockchain.js:87-89 | each owner's count is its number of occurrences among the scanned owners |
| Blockchain.TallySum | src/blockchain.js:87-89 | every count is positive and the counts sum to the number of owners |
| Blockchain.InsertPerm | src/blockchain.js:100 | inserting into the sorted part adds exactly that entry |
| Blockchain.InsertAtMost | src/blockchain.js:100 | inserting keeps an upper bound on the counts |
| Blockchain.SortedCons | src/blockchain.js:100 | a count at least every later count extends a sorted list |
| Blockchain.InsertSorted | src/blockchain.js:100 | inserting keeps the list sorted non-increasing |
| Blockchain.InsertSum | src/blockchain.js:100 | inserting adds the entry's count to the total |
| Blockchain.InsertStable | src/blockchain.js:100 | inserting keeps the order among equal counts, the new entry first |
| Blockchain.SortFacts | src/blockchain.js:100 | the sort gives a sorted permutation with the same total that keeps the order of entries with equal counts |
| Blockchain.UniqueCons | src/blockchain.js:95-98 | a list with a head is duplicate-free exactly when the head is new and the rest is duplicate-free |
| Blockchain.InsertUnique | src/blockchain.js:100 | inserting a new address keeps addresses distinct and adds just that address |
| Blockchain.SortUnique | src/blockchain.js:100 | sorting keeps addresses distinct and keeps the same addresses |
| Blockchain.HolderFacts | src/blockchain.js:88-100 | the holder list is sorted, duplicate-free, positive, sums to the number of owners, and lists equal counts in first-encounter order |
| Blockchain.MapGetUnique | src/blockchain.js:88 | in a duplicate-free map `get` of an entry's address is that entry's count |
| Blockchain.HolderCounts | src/blockchain.js:87-98 | every holder's count is its number of tokens, and every owner found appears as a holder |
| Metadata.MetadataFetcher.constructor | src/metadata.js:4-13 | the four gateways in their fixed order, starting at index 0 |
| Metadata.MetadataFetcher.TryIpfsGateways | src/metadata.js:42-61 | the URL and new index are those of the round-robin search, the index stays among the gateways, and the URLs probed are the gateway-plus-hash of the steps taken, in order |
| Metadata.MetadataFetcher.FetchMetadata | src/metadata.js:15-40 | the document and the new index are those of the prefix dispatch: empty URI nothing, `ipfs://` through the gateways, any other URI fetched as it is |
| Metadata.MetadataFetcher.FetchImageUrl | src/metadata.js:63-76 | the URL and the new index are those of the dispatch on `ipfs://` and `http` |
| Metadata.MetadataFetcher.EnrichAssetWithMetadata | src/metadata.js:78-118 | the settled outcome and the new index are those of the enrichment of one asset |
| Metadata.MetadataFetcher.SettleBatch | src/metadata.js:128-129 | every asset of the batch is enriched and its outcome kept, in order; an outcome is rejected exactly for a missing asset; the outcomes settle to the sequential enrichment of the batch and the index it leaves |
| Metadata.MetadataFetcher.PushResults | src/metadata.js:131-138 | the push fails exactly when the batch holds a missing asset (its `tokenId` is read for the log); otherwise the pushed list is the earlier one followed by each fulfilled value or rejected asset, in order |
| Metadata.MetadataFetcher.EnrichBatch | src/metadata.js:124-138 | one batch fails exactly when it holds a missing asset, after all of it was enriched; otherwise it gives the sequential enrichment of the batch; the index is the one that enrichment leaves either way |
| Metadata.MetadataFetcher.BatchEnrichAssets | src/metadata.js:120-144 | the result and the new index are those of the batch-by-batch run: batches of `batchSize` in order, the call failing at the first batch holding a missing asset after that batch is enriched; one pause of 1000 ms per batch, ceil(n / batchSize) pauses when it succeeds |
| Metadata.BatchSpecStep | src/metadata.js:123-138 | one round of the loop: a batch with a missing asset ends the run with the index that batch leaves, any other batch is put in front of the run of the rest |
| Metadata.BatchesStep | src/metadata.js:123 | one round of `i += batchSize` leaves one batch fewer |
| Metadata.PrependEmpty | src/metadata.js:121 | putting the initially empty list in front of a run changes nothing |
| Metadata.PrependAssoc | src/metadata.js:133-136 | pushing batch after batch in front of a run is pushing them all at once |
| Metadata.EnrichAllStep | src/metadata.js:128-138 | enriching a list is settling its first asset and then enriching the rest from the index it leaves |
| Metadata.JoinEmpty | src/metadata.js:121-138 | the result starts empty and extending by nothing changes nothing |
| Metadata.JoinAssoc | src/metadata.js:133-136 | pushing results batch after batch is the same as pushing them all in order |
| MetadataFacts.FirstLiveFacts | src/metadata.js:43-57 | the search from step `i` finds the first later step whose probe answers 200, or reports that none does |
| MetadataFacts.GatewaySearch | src/metadata.js:42-61 | a URL is found exactly when some gateway answers 200; it is that gateway plus the hash, all earlier probes failed, and the index is the gateway's; otherwise no URL, every gateway probed and the index unchanged |
| MetadataFacts.GatewayAtFirstRound | src/metadata.js:44 | the step-`i` gateway is `start + i`, wrapped around once |
| MetadataFacts.ProbeOrderCoversAll | src/metadata.js:43-45 | the first round visits every gateway exactly once |
| MetadataFacts.StickyGateway | src/metadata.js:44-53 | when the remembered gateway answers, it is used after a single probe |
| MetadataFacts.ThirdGatewayAnswers | src/metadata.js:43-53 | with the first gateway failing and the second answering 404, the third is used, after three probes, and the index becomes 2 |
| MetadataFacts.FetchMetadataCases | src/metadata.js:15-40 | no URI gives nothing; a non-IPFS URI is fetched directly; an IPFS URI no gateway resolves gives nothing with the index unchanged; otherwise the resolved URL is fetched |
| MetadataFacts.ImageUrlCases | src/metadata.js:63-76 | a URL results exactly for an `ipfs://` URI some gateway resolves or for an `http` URI, which is returned unchanged; otherwise nothing and the index unchanged |
| MetadataFacts.EnrichCases | src/metadata.js:78-118 | only a missing asset rejects; an asset without token id or contract, without token info, with an empty token URI or whose document is not fetched comes back unchanged; with a URI and a fetched document the asset is merged with the token info, the document and the image URL resolved after it, at the index that resolution leaves; a changed asset keeps its own fields and gains the token's URI, owner and the fetched metadata with `attributes`, else `traits`, else none |
| MetadataFacts.EnrichAllFacts | src/metadata.js:128-138 | the evidently intended run, each rejected asset pushed as it is: the result has the input's length and order, a missing entry stays missing, and every asset keeps its own fields |
| MetadataFacts.BatchesCeiling | src/metadata.js:123-126 | the number of batches is the ceiling of the asset count over the batch size |
| MetadataFacts.EnrichAllAppend | src/metadata.js:123-138 | enriching two lists one after the other is enriching the first and then the second from the index the first leaves |
| MetadataFacts.BatchOutcome | src/metadata.js:120-144 | `batchEnrichAssets` returns a list exactly when no asset is missing, and then the list and the index are those of enriching all assets in order, whatever the batch size |
| MetadataFacts.BatchOutcomeStep | src/metadata.js:123-138 | the same after a first batch without a missing asset |
| MetadataFacts.FailingBatchShift | src/metadata.js:123-124 | a failing batch of the rest is the failing batch one round later for the whole list |
| MetadataFacts.BatchFailure | src/metadata.js:120-144 | when `batchEnrichAssets` rejects, the batch of some round holds a missing asset, every earlier asset is present, and the index is the one left by enriching everything up to the end of that batch |
| MetadataFacts.BatchFailureStep | src/metadata.js:123-138 | the same after a first batch without a missing asset |
| MetadataFacts.MissingAssetAbortsBatch | src/metadata.js:133-136 | the list `[null]` makes the call reject for every positive batch size, whereas pushing the rejected asset would give `[null]` |
| MetadataFacts.NonPositiveBatchNeverEnds | src/metadata.js:123 | with a batch size of 0 or less and at least one asset, `i < assets.length` holds after every number of rounds |
| MetadataFacts.LoopIndexGrows | src/metadata.js:123 | with a positive batch size `i` stays non-negative and is at least the batch size after a round |
| MetadataFacts.BatchRounds | src/metadata.js:123 | with a positive batch size the loop condition holds after `r` rounds exactly when `r` is below ceil(n / batchSize), so the loop ends |
| Errors.NewScannerError | src/errors.js:1-7 | the base error keeps its message and defaults its code to `UNKNOWN_ERROR` |
| Errors.HandleApiError | src/errors.js:36-65 | the thrown error is a rate-limit error exactly for status 429, carrying the `retry-after` header; a contract error exactly for 404, without an address; otherwise a network error keeping the original; every message ends with the context |
| Errors.Retry | src/errors.js:94-124 | the result, the waits and the number of attempts are those of the attempt loop |
| Errors.PrefixedAssoc | src/errors.js:107-114 | recording waits one by one is the same as recording them all in order |
| ErrorsFacts.ClassifiedRetryable | src/errors.js:36-105 | a classified error is retried exactly when its response had status 429 or a status of 500 or above; an error without a response is never retried |
| ErrorsFacts.ClassifiedCodes | src/errors.js:9-65 | a classified error's code is `NETWORK_ERROR`, `RATE_LIMIT_ERROR` or `CONTRACT_ERROR`, the last exactly for status 404 |
| ErrorsFacts.RetryTrace | src/errors.js:98-122 | from attempt `a` on: every failed attempt before the last was retryable and was followed by its wait; a result is the last attempt's value; a raised error is the last attempt's, not retryable or at the limit |
| ErrorsFacts.RetryBounds | src/errors.js:94-124 | `fn` is called between 1 and `maxRetries` times, with one wait fewer than attempts; a returned value is the first success; with `maxRetries` below 1 `undefined` is thrown without calling `fn` |
| ErrorsFacts.NotRetryableRethrown | src/errors.js:104-118 | an error that is not retryable is rethrown after the single attempt, without waiting |
| ErrorsFacts.RateLimitHintHonoured | src/errors.js:104-114 | a rate-limit error with `retry-after: 2` waits 2000 ms before each retry |
| ErrorsFacts.ServerErrorBacksOff | src/errors.js:104-118 | a persistent 503 waits 1000 then 2000 ms and is rethrown after the third attempt |
| Strings.NatToString | src/errors.js:54-56 | the decimal text of a status is a non-empty run of digits |
| Strings.IntToString | src/utils.js:28-30 | the text of an integer is digits and a sign, as JavaScript writes an integer of magnitude below 10^21 |
| Strings.NatToStringRoundTrip | src/errors.js:54-56 | reading the decimal text back gives the number, and it has no leading zero |
| Utils.FormatAddress | src/utils.js:58-61 | an address is returned exactly when one was given |
| Utils.BuildCsvContent | src/utils.js:5-43 | the text built by the loop is the header line followed by each row's line, or nothing for missing or empty data or a `null` row |
| Utils.NullRowStops | src/utils.js:21-22 | a `null` row (an object to `typeof`) makes `Object.values` throw, so no text is produced |
| Utils.BodyStep | src/utils.js:20-32 | appending a row's line extends the text by one row |
| Utils.PrefixBodyFails | src/utils.js:20-42 | once some row fails, the whole export fails |
| UtilsFacts.HexRunIff | src/utils.js:77 | `[a-fA-F0-9]{n}$` matches exactly `n` hex digits up to the end |
| UtilsFacts.ValidateIff | src/utils.js:76-79 | an address is valid exactly when it has 42 characters, starts with lower-case `0x` and the other 40 are hex digits of either case |
| UtilsFacts.FormatAddressFacts | src/utils.js:58-61 | a missing, empty or short address is returned as it is; a longer one becomes its first 6 characters, `...` and its last 4, always 13 characters (counted as Unicode scalar values); shortening twice is shortening once |
| UtilsFacts.DoubleQuotesFacts | src/utils.js:24 | doubling quotes can be undone, leaves every quote paired, and adds or removes no comma or line break |
| UtilsFacts.EscapeRoundTrip | src/utils.js:22-27 | unquoting and undoubling a written string value gives it back; a quoted value has all inner quotes paired; a string without `,` or `"` is written unchanged |
| UtilsFacts.BodyNoneIff | src/utils.js:20-32 | the rows fail exactly when one of them is `null` |
| UtilsFacts.CsvContentCases | src/utils.js:7-42 | there is no text exactly when the data is missing or empty or holds a `null` row; otherwise the text is the header (from `headers`, else the first object row's keys, else none) followed by the rows |
| UtilsFacts.CellSingleLine | src/utils.js:22-30 | a value without a line break is written without one |
| UtilsFacts.JoinSingleLine | src/utils.js:28 | joining parts without line breaks gives a text without one |
| UtilsFacts.LineIsOneLine | src/utils.js:20-31 | a row without line breaks in its values adds exactly one line |
| UtilsFacts.OneLinePerRow | src/utils.js:20-32 | when no value holds a line break the rows give exactly one line each |
| UtilsFacts.LineBreakSplitsRow | src/utils.js:22-28 | a value holding a line break is not quoted, so its row spans two lines |

## Left out

- I/O is left out. This covers the HTTP requests and their 5 s and 10 s timeouts, the RPC
  provider, the file write in `exportToCSV`, and all console output. Their results are inputs
  of the model, and the `sleep` calls are returned as waits.
- The two constructors of `src/blockchain.js` and `src/scanner.js`, `getProvider`,
  `getContract`, `getCollectionInfo` and `getTokenMetadata` are network wrappers. A failed
  `getContract` is the `contractAvailable` flag of `GetHolders`. `getTokenMetadata` is the
  `tokenInfo` oracle, which answers None for a failed or empty lookup.
- `getCollectionStats`, `getCollectionAssets`, `src/cli.js` and `src/config.js` are plain
  requests, argument parsing and configuration loading.
- `logError` writes to the console and depends on an environment variable. It computes nothing.
- `exportToJSON`, `formatNumber` and `generateTimestamp` are left out. They are JSON
  serialisation, floating-point `toFixed` formatting and the clock.
- Metadata.MetadataFetcher.BatchEnrichAssets runs the assets of a batch one after another. The
  concurrent requests of `Promise.allSettled` and their interleaving on `currentGatewayIndex`
  are not modelled. Only a missing asset rejects its promise.
- Metadata.MetadataFetcher.BatchEnrichAssets requires a positive batch size when there are
  assets, because the loop never ends otherwise (`MetadataFacts.NonPositiveBatchNeverEnds`).
  A fractional batch size is not modelled.
- Metadata.MetadataFetcher.FetchMetadata treats every failed or empty GET as no document.
  Oracle answers that are not documents, such as a non-object body, are not modelled.
- Metadata.MetadataFetcher.EnrichAssetWithMetadata assumes the `image` field and the token
  URI are strings or absent. The `TypeError` a non-string would raise inside the `try` leaves
  the asset unchanged in the source. The model has no such values.
- Errors.RetryAfterMillis reads only a run of digits as a number of seconds. Any other header
  (an HTTP date, spaces, a decimal, a hexadecimal number) is taken as `NaN`. JavaScript's
  `Number` would accept some of those. The seconds and the wait in milliseconds are exact
  integers, whereas JavaScript rounds a value above 2^53 to the nearest double.
- Errors.HandleApiError does not model a `message` that is not a string.
- Blockchain.GetHolders takes `maxTokens` as an integer. A `NaN` or fractional `maxTokens` is
  not modelled.
- Utils.BuildCsvContent takes rows as objects with string, integer, boolean, `null` or
  `undefined` values, or as primitive values. Array rows, nested objects and floating-point
  numbers are not modelled. The text is returned rather than written to a file.
- Utils.FormatAddress and UtilsFacts.FormatAddressFacts count characters as Unicode scalar
  values, the elements of a Dafny `string`. JavaScript's `length` and `slice` count UTF-16 code
  units, so the two differ on a string holding a character beyond U+FFFF. An Ethereum address
  never holds one.
- Utils.BuildCsvContent writes integers exact and unbounded, in full decimal. JavaScript holds
  them exactly only up to 2^53 and writes a magnitude of 10^21 or more in exponent form, as
  `1e+21`.
- Scanner.AnalyzeRarity computes scores as exact reals, not IEEE doubles.

## Findings

| source | as written | input that shows it | evidently intended | confidence | as-written member | corrected member |
|---|---|---|---|---|---|---|
| src/metadata.js:135 | the log line for a rejected asset reads `batch[index].tokenId` outside any `try`; for a missing asset this throws, so `batchEnrichAssets` rejects after the batch has settled | `assets = [null]`, any positive batch size | the rejected asset is pushed as it is (line 136), so `[null]` comes back | high, not executed | MetadataFacts.MissingAssetAbortsBatch | MetadataFacts.EnrichAllFacts |
| src/metadata.js:123 | `i += batchSize` with no check on `batchSize`, so a batch size of 0 or less never moves `i` forward and the loop never ends | `batchSize = 0` with one asset | a positive batch size, with which the loop ends after ceil(n / batchSize) rounds | high, not executed | MetadataFacts.NonPositiveBatchNeverEnds | MetadataFacts.BatchRounds |
