# Security-header test harness: generation, planning and reconciliation in Dafny

This project models the deterministic logic of a research harness that measures how
browsers parse and enforce HTTP security headers (X-Frame-Options, CSP frame-ancestors,
COOP and others), and proves what that logic promises. The harness has four pieces
of such logic, and each one is modelled next to the file it comes from:

- **The header-mutation corpus generator** (`response_header_generation.py`):
  - the string mutations: case changes, padding, quoting, insertion of a character
    at the start, middle or end, and character replacement;
  - the set-valued `mutate_header_name` and `mutate_header_value`;
  - the `<!URL!>` placeholder fan-out `expand_urls`;
  - the two generator classes `HeaderTests` and `HeaderTestsMultHeader`. Their
    methods grow `self.responses` by fixed combinatorial rules.

  Modules: `HeaderMutations`, `ExpandUrls`, `HeaderTestSuite`, `MultHeaderSuite`,
  plus `Itertools` for `permutations` and `product`.
- **The two repeat reconcilers** (`_hp/hp/tools/create_repeat.py` and the older
  `_hp/tools/create_repeat.py`). Each reads the joined result rows, decides which
  (test, browser) pairs must run again, and builds `repeat.json`: one set of retry
  URLs per browser. Modules: `CreateRepeat`, `CreateRepeatOld` and their shared
  `RepeatCommon`, with `Patterns` for the regular expressions.
- **The test page's selection rule** (`store_results.sub.js`). `get_test_origins`
  fixes the origins, and `run_tests` decides which (response id × origin × declared
  test) triples run, using the `popup_count` window. Module: `TestPage`.
- **The small planners and conversions**:
  - `get_tests`: `CrawlerUtils`;
  - the run planners and timeout rules of both desktop Selenium crawlers:
    `DesktopSelenium`, `DesktopSeleniumOld`, with `Chunking` for the URL chunks;
  - `calc_offsets`: `GetChunks`;
  - the memoised response-id lookup: `RespIds`;
  - the request-to-Result mapping of the result store: `StoreResults`;
  - the emulator port and AVD-name arithmetic, the `adb devices` parsing and the
    intent loop of the Android crawler: `AndroidIntent`.

`Common` (sequence helpers, `Option`/`Result`) and `Strings` (Python string
operations on `seq<char>`) are shared by all of them.

## How the source's form is kept

- **Mutating loops are methods.** Each loop that appends to a list, adds to a set or
  fills a dictionary is a `method` with a `while` loop:
  - `expand_urls`, `mutate_header_*` and `get_tests`;
  - the planners' `all_args` loops;
  - the reconcilers' `to_repeat` loops;
  - `get_test_origins` and `run_tests`.

  Each is proved equal to a specification function, and the properties are lemmas
  about that function.
- **Objects that change their fields are classes.**
  - `HeaderTests` and `HeaderTestsMultHeader` keep `responses` as a `seq` field. Every
    generator method states the whole new list as `old(responses) +` a function of the
    inputs.
  - The `lru_cache` of `get_resp_ids` is the class `RespIdCache` with a `map` field.
  - The `to_repeat` dictionary is the class `RepeatDict`.
  - The results session is the class `ResultsTable`, an append-only `seq`.
- **Errors are values.** Python exceptions the code can raise become the `Err` branch
  of a `Result`, or the `ValueError` datatype where the model needs to say which error.
  Examples: a zero chunk size in `range`, a missing `timeout=` in a URL, a failed
  `int()`, a missing dictionary key, a division by zero in the value cycling. The
  contracts state exactly when each error happens.
- **Inputs from outside are parameters.** The database rows, the contents of
  `repeat.json`, the store behind `get_resp_ids`, the configured hosts and the random
  choice stream are all parameters.

## Behaviour of the code worth knowing

- **Unobserved browsers are scheduled too.** The newer reconciler counts results with
  `value_counts` over a categorical browser column. A browser with no finished result
  for a test counts 0 and is scheduled for that test (`CreateRepeat.PendingByIff`).
- **A popup conflict aborts the whole run.** When a retry URL cannot carry the popup
  fields, the reconciler raises, and the whole `calc_repeat` fails.
  `CreateRepeat.ToRepeatErr` states exactly when this happens.
- **`clean_url` writes a fixed id.** It sets the browser id to 1.
- **The timeout is doubled.** The retry timeout is exactly twice the first
  `timeout=` value. It goes in as the first query parameter right after the first `?`.
- **Cached ids keep the store's order.** `get_resp_ids` returns ids in the order the
  store yields them.
- **Set order is left open.** Set-valued mutation output is iterated in Python's
  set order, which depends on string hashing. The model names no order (`ListSet`).

## Model

Each row names a member, the source lines it models, and what its contract states.

| member | source | states |
|---|---|---|
| GetChunks.Range | _hp/tools/crawler/get_chunks.py:14 | `range(start, stop, step)` is empty exactly when `start` is already at or past `stop` in the step's direction |
| GetChunks.CalcOffsets | _hp/tools/crawler/get_chunks.py:13-14 | `calc_offsets` fails (Python's `ValueError`) exactly when the limit is zero |
| GetChunks.RangeElements | _hp/tools/crawler/get_chunks.py:14 | element `i` of a range is `start + i*step`, and every element lies before `stop` in the step's direction |
| GetChunks.RangeLength | _hp/tools/crawler/get_chunks.py:14 | a positive-step range over a non-empty interval has ⌈(stop − start)/step⌉ elements |
| GetChunks.CalcOffsetsMultiples | _hp/tools/crawler/get_chunks.py:13-14 | for a positive limit the offsets are `0, limit, 2·limit, …`, consecutive ones `limit` apart, all below the count |
| GetChunks.CalcOffsetsEmpty | _hp/tools/crawler/get_chunks.py:13-14 | for a positive limit there are no offsets exactly when the count is not positive |
| GetChunks.CalcOffsetsLength | _hp/tools/crawler/get_chunks.py:13-14 | a positive count and limit give `(count + limit − 1) / limit` offsets |
| GetChunks.OffsetIsMultiple | _hp/tools/crawler/get_chunks.py:14 | every offset is a non-negative multiple of the limit below the count |
| GetChunks.MultipleIsOffset | _hp/tools/crawler/get_chunks.py:14 | every non-negative multiple of the limit below the count is an offset |
| GetChunks.CalcOffsetsMembers | _hp/tools/crawler/get_chunks.py:13-14 | a number is an offset if and only if it is a non-negative multiple of the limit below the count |
| GetChunks.CalcOffsetsWindows | _hp/tools/crawler/get_chunks.py:13-25 | the windows `[offset, offset + limit)` that `get_testcases` fetches cover every test index below the count exactly once |
| GetChunks.WindowIndex | _hp/tools/crawler/get_chunks.py:13-25 | the window holding test index `n` is the one with index `n / limit` |
| GetChunks.CalcOffsetsNegative | _hp/tools/crawler/get_chunks.py:13-14 | a negative limit gives the downward offsets `0, limit, 2·limit, …` above the count, none when the count is not negative |
| Chunking.Chunks | _hp/hp/tools/crawler/desktop_selenium.py:469 | every chunk is non-empty and holds at most `size` URLs |
| Chunking.SliceChunks | _hp/hp/tools/crawler/desktop_selenium.py:469 | the chunking fails (`range` with step 0) exactly when the size is zero, and is empty for a negative size |
| Chunking.ChunksFlatten | _hp/hp/tools/crawler/desktop_selenium.py:469 | concatenating the chunks gives back the URL list, in order |
| Chunking.ChunksFull | _hp/hp/tools/crawler/desktop_selenium.py:469 | every chunk but the last holds exactly `size` URLs |
| Chunking.ChunksAt | _hp/hp/tools/crawler/desktop_selenium.py:469 | chunk `k` is the slice starting at `k·size`, cut at the end of the list |
| Chunking.ChunksCount | _hp/hp/tools/crawler/desktop_selenium.py:469 | a non-empty list gives ⌈len/size⌉ chunks |
| Chunking.ChunksPerOffset | _hp/hp/tools/crawler/desktop_selenium.py:469 | there is one chunk per element of `range(0, len(test_urls), size)` |
| Chunking.ChunksMatchOffsets | _hp/hp/tools/crawler/desktop_selenium.py:469 | chunk `k` is exactly the comprehension's slice `test_urls[i:i + size]` for the `k`-th `i` of the range |
| Chunking.ChunkAtOffset | _hp/hp/tools/crawler/desktop_selenium.py:469 | the same for one index `k` |
| Chunking.Repeated | _hp/hp/tools/crawler/desktop_selenium.py:474 | `url_chunk * gen_multiplier` has `n·len` elements, none for `n ≤ 0` |
| Chunking.RepeatedAt | _hp/hp/tools/crawler/desktop_selenium.py:474 | element `i` of the repetition is element `i mod len` of the chunk |
| CrawlerUtils.LabelledUrls | _hp/tools/crawler/utils.py:23-25 | a framing page yields one URL per label, three in all |
| CrawlerUtils.AppendFileUrls | _hp/tools/crawler/utils.py:22-29 | one pass of the loop appends exactly the URLs of that test page to what was collected so far |
| CrawlerUtils.CollectUrls | _hp/tools/crawler/utils.py:20-30 | the loop over the pages returns the concatenation, in page order, of each page's URLs |
| CrawlerUtils.GetTests | _hp/tools/crawler/utils.py:6-30 | `get_tests` returns the URLs of the twelve listed test pages in order |
| CrawlerUtils.AllUrlsAppend | _hp/tools/crawler/utils.py:22-29 | the URLs of two page lists one after the other are the URLs of the first followed by those of the second |
| CrawlerUtils.FileUrlStartsWithTestUrl | _hp/tools/crawler/utils.py:25-29 | every URL of a page starts with that page's URL carrying `resp_type` and `browser_id` |
| CrawlerUtils.UrlsStartWithTestUrl | _hp/tools/crawler/utils.py:20-30 | every URL returned starts with the URL of one of the pages |
| CrawlerUtils.LabelledUrlsOrder | _hp/tools/crawler/utils.py:24-25 | the labelled URLs come in the order XFO, CSP-FA, CSPvsXFO |
| CrawlerUtils.FramingUrls | _hp/tools/crawler/utils.py:23-29 | a framing page yields its three labelled URLs followed by the unlabelled one |
| CrawlerUtils.UpgradeUrls | _hp/tools/crawler/utils.py:26-29 | the upgrade page yields no URL over https and its one URL otherwise |
| CrawlerUtils.PlainUrls | _hp/tools/crawler/utils.py:28-29 | any other page yields exactly its own URL |
| CrawlerUtils.FileUrlsLength | _hp/tools/crawler/utils.py:22-29 | a page yields 3 URLs if it is a framing page, plus 1 unless it is the upgrade page under https |
| CrawlerUtils.PageKinds | _hp/tools/crawler/utils.py:6-18 | among the twelve pages exactly the second contains "framing" and exactly the eleventh contains "upgrade" |
| CrawlerUtils.GetTestsCount | _hp/tools/crawler/utils.py:20-30 | `get_tests` returns 15 URLs over http and 14 over https |
| AndroidIntent.TruncHalf | _hp/hp/tools/crawler/android_intent.py:102 | integer halving toward zero, which is `int(x/2)` while `x/2` is exact as a float: for `x ≥ 0` it is the `r ≥ 0` with `2r ≤ x < 2r + 2`, for `x < 0` the `r ≤ 0` with `2r − 2 < x ≤ 2r` |
| AndroidIntent.EmulatorAvdName | _hp/hp/tools/crawler/android_intent.py:90-103 | `get_emulator_avd_name` fails exactly when the text after the last '-' is not an integer (`int()` raises), and otherwise returns a decimal numeral (exact for ports below 5554 + 2^53; see "Left out") |
| AndroidIntent.PortByAvdName | _hp/hp/tools/crawler/android_intent.py:105-117 | the port loop fails exactly when the name is not an integer; otherwise it returns `5552 + 2·max(n, 0)` (the loop body never runs for `n ≤ 0`), i.e. `5552 + 2n` for `n ≥ 0` |
| AndroidIntent.AvdNameOfPort | _hp/hp/tools/crawler/android_intent.py:99-117 | round trip: the AVD name of the device `emulator-<port of n>` is `str(n)` for `n ≥ 1`; a number `n ≤ 0` gets port 5552, which converts to "0" |
| AndroidIntent.StartEmulators | _hp/hp/tools/crawler/android_intent.py:148-158 | `start_emulators(n)` issues `max(n, 0)` start commands, device `k` on port `5554 + 2(k−1)`, the same port `get_port_by_emulator_avd_name(k)` computes |
| AndroidIntent.DeviceIds | _hp/hp/tools/crawler/android_intent.py:59-64 | the parser keeps at most one id per output line |
| AndroidIntent.AvailableDevices | _hp/hp/tools/crawler/android_intent.py:50-66 | the loop over the stripped `adb devices` output returns the ids of the kept lines, in order |
| AndroidIntent.DeviceIdsFromKeptLines | _hp/hp/tools/crawler/android_intent.py:59-64 | every returned id is the text before the first tab of a line that is neither the header nor contains "offline" |
| AndroidIntent.ParseListing | _hp/hp/tools/crawler/android_intent.py:56-66 | parsing a well-formed `adb devices` listing (header line, then one `id<TAB>state` line per device, none offline) returns exactly the listed ids in order |
| AndroidIntent.ListingLines | _hp/hp/tools/crawler/android_intent.py:57-59 | stripping and splitting such a listing at newlines gives back the header line followed by the device lines |
| AndroidIntent.ListingIds | _hp/hp/tools/crawler/android_intent.py:59-64 | on the header line plus well-formed device lines the loop returns the ids in order |
| AndroidIntent.ShellEscapeRoundTrip | _hp/hp/tools/crawler/android_intent.py:203 | escaping every '&' as `\&` loses nothing: unescaping gives back the URL |
| AndroidIntent.ShellEscapeHead | _hp/hp/tools/crawler/android_intent.py:203 | the escape works character by character, turning only '&' into `\&` |
| AndroidIntent.RunTest | _hp/hp/tools/crawler/android_intent.py:181-231 | `run_test` fails exactly when the device id has no integer port; otherwise it records the AVD name and one visit per app (see `VisitApps`) |
| AndroidIntent.VisitApps | _hp/hp/tools/crawler/android_intent.py:191-229 | each app's URL gets `&run_id=<id>` appended and is sent with every '&' escaped, in order; with auto-restart the counter resets to 0 after every 100th intent, and a restart is recorded there |
| AndroidIntent.LinesOfJoin | _hp/hp/tools/crawler/android_intent.py:57-59 | splitting an already stripped output at newlines gives back its lines |
| AndroidIntent.ListingStripped | _hp/hp/tools/crawler/android_intent.py:57 | `strip()` leaves an `adb devices` listing whose last state does not end in white space unchanged |
| AndroidIntent.FirstPieceOfLine | _hp/hp/tools/crawler/android_intent.py:63 | `line.split('\t')[0]` of a device line is the device id |
| AndroidIntent.DeviceIdsOfLines | _hp/hp/tools/crawler/android_intent.py:59-64 | after the header, the first `n` device lines give the first `n` device ids |
| RespIds.MatchingIds | _hp/server/get_resp_ids.py:20-21 | the comprehension returns at most one id per stored response |
| RespIds.QueryIds | _hp/server/get_resp_ids.py:18-24 | a query that raises gives the empty list |
| RespIds.MatchingIdsMembers | _hp/server/get_resp_ids.py:20-21 | an id is returned if and only if some stored response carries it together with both the label and the resp_type asked for |
| RespIds.MatchingIdsIgnoresOthers | _hp/server/get_resp_ids.py:20 | a response with another label or resp_type does not change the answer |
| RespIds.RespIdCache.constructor | _hp/server/get_resp_ids.py:6 | the memo table starts empty when the server starts |
| RespIds.RespIdCache.GetRespIds | _hp/server/get_resp_ids.py:6-24 | a cached key returns its cached list without consulting the store; an uncached key is answered from the store (`[]` on error) and only that key is added to the cache |
| RespIds.RespIdCache.Handle | _hp/server/get_resp_ids.py:26-39 | `main` fails (`KeyError`) exactly when `label` or `resp_type` is missing from the GET parameters, and otherwise passes both through unchanged to the memoised lookup |
| RespIds.RepeatedLookup | _hp/server/get_resp_ids.py:6-9 | two calls with the same key return the same list, even when the store changed in between |
| StoreResults.Get | _hp/server/store_results.py:11-13 | `v[key]` succeeds exactly on an object holding the key, and returns its value |
| StoreResults.Iterated | _hp/server/store_results.py:18 | `for test in req["tests"]` visits the items of a list, in order |
| StoreResults.RowOf | _hp/server/store_results.py:18-31 | a test yields a Result exactly when it holds all five fields and a string name; the Result keeps outcome, name, status, message and stack unchanged, types the outcome by its string form, takes the request's browser id, testcase id 1, status 'FINISHED' and the text after the last '\|' of the name as response id |
| StoreResults.RequestRowsEach | _hp/server/store_results.py:18-31 | one Result per element of `req["tests"]`, in order |
| StoreResults.RequestRowsShared | _hp/server/store_results.py:13-30 | every Result of one request carries the request's browser id, status 'FINISHED' and testcase id 1 |
| StoreResults.ResultsTable.constructor | _hp/server/store_results.py:8 | the results table starts empty |
| StoreResults.ResultsTable.Store | _hp/server/store_results.py:8-35 | the handler succeeds exactly when every test maps to a Result; then the table grows by exactly those Results, in order, and the answer is `{'Status': 'Success'}`; on an error nothing is committed |
| TestPage.OrgScheme | _hp/resources/store_results.sub.js:5 | the page's scheme is "http2" exactly on port 9000, "http" exactly for protocol "http:" on another port, and "https" otherwise |
| TestPage.TestHosts | _hp/resources/store_results.sub.js:15-18 | four hosts: same host, parent, sub-domain, cross-site |
| TestPage.HostOrigins | _hp/resources/store_results.sub.js:26-36 | the origin loop yields one origin per host when http is skipped and two otherwise |
| TestPage.HostOriginsAt | _hp/resources/store_results.sub.js:26-36 | host `k` gives the https origin at position `k` when http is skipped, and otherwise http at `2k` followed by https at `2k + 1` |
| TestPage.TestOrigins | _hp/resources/store_results.sub.js:14-38 | `get_test_origins` returns the default origin list of the mode, pushed host by host |
| TestPage.DefaultOriginsContents | _hp/resources/store_results.sub.js:14-38 | parsing mode gives exactly `[https://alt_host]`; otherwise the four hosts in order give 4 https origins when `search` is set on an https page and 8 interleaved http/https origins when not |
| TestPage.JsParseInt | _hp/resources/store_results.sub.js:56-66 | `parseInt(s, 10)` is NaN exactly when no digit follows the optional whitespace and sign, and is non-negative unless a '-' sign is present |
| TestPage.JsParseIntOfString | _hp/resources/store_results.sub.js:56-66 | a decimal numeral followed by a non-digit parses back to its number |
| TestPage.NumberOrNull | _hp/resources/store_results.sub.js:56-57 | `parseInt(...) \|\| null` never yields 0: a zero falls back to null like NaN |
| TestPage.StringOrNull | _hp/resources/store_results.sub.js:67-68 | `get(...) \|\| null` never yields the empty string |
| TestPage.StringOr | _hp/resources/store_results.sub.js:54-62 | a missing or empty parameter falls back to the default |
| TestPage.SettingsOf | _hp/resources/store_results.sub.js:54-68 | `first_popup` defaults to 0 and `last_popup` to Infinity (also when the parameter parses to 0) |
| TestPage.DefaultSettings | _hp/resources/store_results.sub.js:59-66 | without popup parameters first_popup is 0, last_popup Infinity, run_no_popup 'yes' and no test instance is pinned |
| TestPage.RunAppend | _hp/resources/store_results.sub.js:76-108 | running the triples of two lists one after the other is running the first and continuing with the popup counter it left |
| TestPage.DeclTriples | _hp/resources/store_results.sub.js:80 | one triple per declared test, in order |
| TestPage.OriginTriples | _hp/resources/store_results.sub.js:79-80 | every origin crossed with every declared test |
| TestPage.IdRange | _hp/resources/store_results.sub.js:78 | the ids `first_id..last_id` inclusive, ascending, none when `first_id > last_id` |
| TestPage.Visit | _hp/resources/store_results.sub.js:83-104 | the body of the innermost loop for one triple is one step of the selection rule |
| TestPage.RunDecls | _hp/resources/store_results.sub.js:80-105 | the innermost loop runs the selection rule over the declared tests in order |
| TestPage.RunOrigins | _hp/resources/store_results.sub.js:79-106 | the origin loop runs it over every origin and then every test |
| TestPage.RunIds | _hp/resources/store_results.sub.js:76-107 | the id loop runs it over `first_id..last_id` crossed with every origin and every test, in that nesting order, starting from `popup_count = 0` |
| TestPage.AllCalls | _hp/resources/store_results.sub.js:115 | the fetch branch calls every triple's test, in order |
| TestPage.AllCallsAppend | _hp/resources/store_results.sub.js:112-118 | the calls of two triple lists are the calls of the first followed by those of the second |
| TestPage.FetchedDecls | _hp/resources/store_results.sub.js:114-116 | the fetch branch's innermost loop calls every declared test |
| TestPage.FetchedOrigins | _hp/resources/store_results.sub.js:113-117 | its origin loop calls every origin crossed with every test |
| TestPage.FetchedCalls | _hp/resources/store_results.sub.js:111-119 | its id loop calls every fetched id crossed with every origin and every test, unfiltered |
| TestPage.RunTests | _hp/resources/store_results.sub.js:52-122 | with both `first_id` and `last_id` set, the calls are the selection rule over the id range crossed with the origins (the page's own, or the mode's default) and tests; otherwise every fetched id, origin and test is called unfiltered |
| TestPage.RunDefaults | _hp/resources/store_results.sub.js:59-104 | with the default popup settings and no pinned instance every triple's test runs, in order |
| TestPage.RunCountMonotone | _hp/resources/store_results.sub.js:95-96 | `popup_count` never decreases |
| TestPage.PopupsPassing | _hp/resources/store_results.sub.js:83-96 | the number of popup tests reached is at most the number of triples |
| TestPage.RunCount | _hp/resources/store_results.sub.js:83-96 | `popup_count` grows by one for each popup test that passes the manual-confirmation filter, and only for those |
| TestPage.RunCallsSound | _hp/resources/store_results.sub.js:83-104 | every test that runs comes from a triple that passes the filter; a non-popup test runs only with run_no_popup 'yes' |
| TestPage.RunFilterExact | _hp/resources/store_results.sub.js:83-92 | with `t_resp_id` set only the exact instance (response id, origin and element relation) runs |
| TestPage.RunSelects | _hp/resources/store_results.sub.js:83-104 | for any mix of popup and non-popup tests, any filter, window and start state, the loop calls exactly the triples that pass the filter and then, for a popup test, have their popup number (start count plus the passing popup tests up to it) in `[first_popup, last_popup]`, or, for a non-popup test, have run_no_popup 'yes'; in order |
| TestPage.RunWindow | _hp/resources/store_results.sub.js:95-99 | with no pinned instance (`t_resp_id` unset), a finite last_popup and popup tests only, the `n`-th one runs if and only if `first_popup ≤ n ≤ last_popup`: the calls are the stretch of positions first_popup−1 to last_popup−1 (the general rule is `RunSelects`) |
| TestPage.WindowStep | _hp/resources/store_results.sub.js:95-99 | one more popup test runs exactly when its number lies in the window |
| TestPage.PopupsAll | _hp/resources/store_results.sub.js:95-96 | without a pinned instance every popup test advances the counter |
| TestPage.JsUnsignedNegative | _hp/resources/store_results.sub.js:56-66 | `parseInt` reads a leading `-` as the sign and the digits after it |
| TestPage.JsUnsignedDigits | _hp/resources/store_results.sub.js:56-66 | a string starting with a digit has no sign to skip |
| DesktopSelenium.WithCerts | _hp/hp/tools/crawler/desktop_selenium.py:451-452 | without `--ignore_certs` the arguments are unchanged; with it the flag is appended, and a browser without an argument list (None) raises |
| DesktopSelenium.WithPrefix | _hp/hp/tools/crawler/desktop_selenium.py:460 | the repeat filter keeps exactly the URLs that start with `{scheme}://` |
| DesktopSelenium.PageTimeout | _hp/hp/tools/crawler/desktop_selenium.py:456-462 | page_timeout is TIMEOUT for a full run and 3 × TIMEOUT in repeat mode |
| DesktopSelenium.AddChunksArgs | _hp/hp/tools/crawler/desktop_selenium.py:470-471 | the chunk loop appends one argument tuple per chunk, in chunk order, after the tuples already there |
| DesktopSelenium.SchemePairs | _hp/hp/tools/crawler/desktop_selenium.py:450 | the pairs of one scheme follow the browser configuration order |
| DesktopSelenium.Pairs | _hp/hp/tools/crawler/desktop_selenium.py:449-450 | both schemes crossed with every configured browser |
| DesktopSelenium.FoldAppend | _hp/hp/tools/crawler/desktop_selenium.py:449-476 | planning two runs of pairs one after the other is planning the second from the state the first left |
| DesktopSelenium.FoldErr | _hp/hp/tools/crawler/desktop_selenium.py:449-476 | once a pair raises, the plan is that error |
| DesktopSelenium.AppendChunks | _hp/hp/tools/crawler/desktop_selenium.py:470-476 | the chunk loop's result is the plan the chunks add one at a time |
| DesktopSelenium.PlanPair | _hp/hp/tools/crawler/desktop_selenium.py:450-476 | the body of the browser loop for one pair: certificate flag, URL selection, skip of an empty repeat pair, chunking and one tuple per chunk |
| DesktopSelenium.PlanScheme | _hp/hp/tools/crawler/desktop_selenium.py:450-476 | the browser loop for one scheme plans its pairs in configuration order |
| DesktopSelenium.PlanRuns | _hp/hp/tools/crawler/desktop_selenium.py:449-476 | the scheme loop plans http first and then https |
| DesktopSelenium.ArgUrls | _hp/hp/tools/crawler/desktop_selenium.py:471 | the URL chunk of each tuple |
| DesktopSelenium.PairStepChunks | _hp/hp/tools/crawler/desktop_selenium.py:469-471 | the tuples one pair adds carry, concatenated, exactly that pair's URLs in order, and earlier tuples are untouched |
| DesktopSelenium.PairStepChunkSizes | _hp/hp/tools/crawler/desktop_selenium.py:456-471 | every added tuple holds between 1 and `max_urls_until_restart` URLs, all but the last exactly that many, and carries the mode's page_timeout |
| DesktopSelenium.RepeatSkipsEmpty | _hp/hp/tools/crawler/desktop_selenium.py:457-464 | in repeat mode a pair without URLs for the scheme adds nothing |
| DesktopSelenium.RepeatPlanShaped | _hp/hp/tools/crawler/desktop_selenium.py:457-471 | in repeat mode every planned URL starts with `http://` or `https://` and every tuple waits 3 × TIMEOUT |
| DesktopSelenium.PairStepRepeatShaped | _hp/hp/tools/crawler/desktop_selenium.py:457-471 | one repeat pair keeps that shape |
| DesktopSelenium.AddChunksShaped | _hp/hp/tools/crawler/desktop_selenium.py:469-471 | chunks of prefixed URLs keep that shape |
| DesktopSelenium.PlanRunnersMatch | _hp/hp/tools/crawler/desktop_selenium.py:473-476 | with gen_page_runner there is one page-runner page per tuple, page `k` with id `{rand_token}-{k}` and tuple `k`'s URLs repeated gen_multiplier times, and chunk_id counts them; without it no page is planned and chunk_id stays 0 |
| DesktopSelenium.PairStepRunnersMatch | _hp/hp/tools/crawler/desktop_selenium.py:473-476 | one pair keeps that correspondence |
| DesktopSelenium.AddChunksRunners | _hp/hp/tools/crawler/desktop_selenium.py:470-476 | the chunk loop keeps it |
| DesktopSelenium.AddChunkRunners | _hp/hp/tools/crawler/desktop_selenium.py:471-476 | one chunk keeps it |
| DesktopSelenium.RunnerCheck | _hp/hp/tools/crawler/desktop_selenium.py:444 | the assertion passes exactly when the URL holds `runner-` followed by digits worth 1; no match raises |
| DesktopSelenium.PlanFromRunnerJson | _hp/hp/tools/crawler/desktop_selenium.py:435-446 | the page-runner JSON plan succeeds exactly when one browser is configured and every URL passes the check; then it has one single-URL tuple per URL, in order, with the browser id appended and `timeout_task` less 60 s |
| DesktopSelenium.PageLoads | _hp/hp/tools/crawler/desktop_selenium.py:201-203 | a URL containing "upgrade" is preceded by a visit to HSTS_DEACTIVATE; any other URL is loaded alone |
| DesktopSelenium.UrlTimeout | _hp/hp/tools/crawler/desktop_selenium.py:213-218 | a test-page-runner URL waits 0 extra seconds; any other URL takes its `timeout=N`, and raises without one |
| DesktopSelenium.WaitTimeout | _hp/hp/tools/crawler/desktop_selenium.py:213-219 | the wait is `max(page_timeout, url_timeout + 2)` |
| DesktopSelenium.UrlTimeoutOf | _hp/hp/tools/crawler/desktop_selenium.py:215 | a URL carrying `timeout=N` gives the timeout `N` |
| DesktopSeleniumOld.ChunkTuples | _hp/tools/crawler/desktop_selenium.py:243-244 | one worker tuple per chunk, in chunk order, each carrying that chunk and `timeout_task` |
| DesktopSeleniumOld.PairTuples | _hp/tools/crawler/desktop_selenium.py:229-244 | one pair's tuples fail exactly when `max_urls_until_restart` is 0 (range raises) and the pair is not skipped; a repeat pair without URLs for the scheme is skipped |
| DesktopSeleniumOld.FoldAppend | _hp/tools/crawler/desktop_selenium.py:227-244 | planning two runs of pairs one after the other is planning the second from the state the first left |
| DesktopSeleniumOld.FoldErr | _hp/tools/crawler/desktop_selenium.py:227-244 | once a pair raises, the plan is that error |
| DesktopSeleniumOld.AppendChunks | _hp/tools/crawler/desktop_selenium.py:243-244 | the chunk loop appends the chunk tuples after those already there |
| DesktopSeleniumOld.PlanPair | _hp/tools/crawler/desktop_selenium.py:230-244 | the body of the browser loop for one pair: its tuples appended, or the error it raises |
| DesktopSeleniumOld.PlanScheme | _hp/tools/crawler/desktop_selenium.py:229-244 | the browser loop for one scheme plans its pairs in configuration order |
| DesktopSeleniumOld.PlanRuns | _hp/tools/crawler/desktop_selenium.py:227-244 | the scheme loop plans http first and then https |
| DesktopSeleniumOld.ArgUrls | _hp/tools/crawler/desktop_selenium.py:244 | the URL chunk of each tuple |
| DesktopSeleniumOld.PairTuplesChunks | _hp/tools/crawler/desktop_selenium.py:242-244 | with a positive chunk size, one pair's tuples carry, concatenated, exactly its URLs; each holds 1 to `max_urls_until_restart` URLs, all but the last exactly that many, and `timeout_task` |
| DesktopSeleniumOld.ArgUrlsAppend | _hp/tools/crawler/desktop_selenium.py:244 | the URL chunks of two tuple lists are those of each, in order |
| DesktopSeleniumOld.SomeUnskippedIff | _hp/tools/crawler/desktop_selenium.py:237-238 | the recursive test for an unskipped pair holds exactly when some pair is not skipped, where skipped means repeat mode with no URL of the scheme |
| DesktopSeleniumOld.FoldErrIff | _hp/tools/crawler/desktop_selenium.py:242 | the plan fails exactly when the chunk size is 0 and some pair is not skipped |
| DesktopSeleniumOld.FoldErrUnskipped | _hp/tools/crawler/desktop_selenium.py:242 | the same, by induction over the pairs |
| DesktopSeleniumOld.FoldPlanned | _hp/tools/crawler/desktop_selenium.py:227-244 | with a positive chunk size the loops succeed and append every pair's tuples in order |
| DesktopSeleniumOld.PlannedUrls | _hp/tools/crawler/desktop_selenium.py:242-244 | the planned tuples carry, concatenated, every pair's URLs in pair order: no URL is lost, duplicated or reordered |
| DesktopSeleniumOld.FoldTimeouts | _hp/tools/crawler/desktop_selenium.py:244 | every planned tuple carries `timeout_task` |
| DesktopSeleniumOld.RepeatSkipsEmpty | _hp/tools/crawler/desktop_selenium.py:233-238 | in repeat mode a pair without URLs for the scheme adds nothing |
| DesktopSeleniumOld.RepeatPlanSchemes | _hp/tools/crawler/desktop_selenium.py:233-244 | a repeat plan with positive chunk size succeeds and every planned URL starts with `http://` or `https://` |
| DesktopSeleniumOld.PairsSchemes | _hp/tools/crawler/desktop_selenium.py:228-229 | every pair's scheme is http or https |
| DesktopSeleniumOld.AllPairUrlsPrefixed | _hp/tools/crawler/desktop_selenium.py:236 | in repeat mode every URL of the pairs starts with its scheme's prefix |
| DesktopSeleniumOld.VisitOf | _hp/tools/crawler/desktop_selenium.py:74-97 | a visit ends with the test URL, is preceded by an HSTS_DEACTIVATE load exactly when the URL contains "upgrade", allows 2 × TIMEOUT to load a page and waits TIMEOUT |
| DesktopSelenium.PageLoadTimeoutByMode | _hp/hp/tools/crawler/desktop_selenium.py:186 | the page-load timeout is 2 × page_timeout: 2 × TIMEOUT in a full run, 6 × TIMEOUT in repeat mode |
| Patterns.ClassRun | _hp/hp/tools/create_repeat.py:88-98 | a `\d+` or `\w+` run takes the longest prefix of class characters: every character in it is in the class and the next one is not |
| Patterns.MatchLen | _hp/hp/tools/create_repeat.py:45-48 | a match at the head of a string never extends past its end |
| Patterns.MatchCons | _hp/hp/tools/create_repeat.py:45-48 | a pattern matches token by token: the head's length plus the rest's |
| Patterns.LitCons | _hp/hp/tools/create_repeat.py:45-48 | a literal head matches exactly its own text |
| Patterns.DigitsCons | _hp/hp/tools/create_repeat.py:45-48 | `\d+` in front of a non-digit matches exactly those digits |
| Patterns.SubAbsent | _hp/hp/tools/create_repeat.py:45-48 | `re.sub` of a pattern whose leading literal does not occur returns the string unchanged |
| Patterns.SubSkipsPrefix | _hp/hp/tools/create_repeat.py:45-48 | `re.sub` copies a prefix in which no match can start and continues after it |
| Patterns.SubFirstAt | _hp/hp/tools/create_repeat.py:95 | `re.sub("\?", rep, count=1)` replaces exactly the first `?` and keeps the rest |
| Patterns.SubFirstAbsent | _hp/hp/tools/create_repeat.py:95 | without a `?` the URL is unchanged |
| Patterns.Search | _hp/hp/tools/create_repeat.py:88-98 | `re.search(lit + "(\d+)")` or `"(\w+)"` captures a non-empty run of class characters |
| Patterns.SearchFound | _hp/hp/tools/create_repeat.py:88-98 | a found group occurs in the URL right after the literal |
| Patterns.SearchAbsent | _hp/hp/tools/create_repeat.py:88-98 | a URL without the literal gives no match (`None`) |
| Patterns.LeadingDigits | _hp/hp/tools/create_repeat.py:94 | the captured group of `(\d+)` holds digits only |
| Patterns.LeadingDigitsOf | _hp/hp/tools/create_repeat.py:94 | in front of a non-digit the captured group is exactly the digits |
| Patterns.ClassRunOf | _hp/hp/tools/create_repeat.py:88-98 | a class run in front of a character outside the class is exactly that run |
| Patterns.SearchAfter | _hp/hp/tools/create_repeat.py:88-98 | searching `pre + lit + d + rest`, where `pre` cannot start the literal and `rest` does not continue the run, captures exactly `d` |
| RepeatCommon.SubMatch | _hp/hp/tools/create_repeat.py:45-48 | where the pattern matches, `re.sub` emits the replacement and continues after the match |
| RepeatCommon.SubOnce | _hp/hp/tools/create_repeat.py:45-48 | a URL with one match of the pattern has exactly that occurrence replaced and everything around it kept |
| RepeatCommon.SubAtMatch | _hp/hp/tools/create_repeat.py:45-48 | a match at the front followed by no further occurrence is replaced once |
| RepeatCommon.LitDigitsMatch | _hp/hp/tools/create_repeat.py:90-91 | `lit(\d+)` matches the literal and the whole run of digits after it |
| RepeatCommon.LitDigitsLitMatch | _hp/hp/tools/create_repeat.py:48 | `timeout=(\d+)&` matches the literal, the digits and the closing `&` |
| RepeatCommon.DigitsLitMatch | _hp/hp/tools/create_repeat.py:48 | the digits and the closing literal match together |
| RepeatCommon.SubLitDigitsOnce | _hp/hp/tools/create_repeat.py:90-91 | replacing the one `lit(\d+)` of a URL rewrites exactly that parameter |
| RepeatCommon.SubLitDigitsLitOnce | _hp/hp/tools/create_repeat.py:48 | replacing the one `timeout=(\d+)&` of a URL removes exactly that parameter |
| RepeatCommon.WithBrowserIdOnce | _hp/hp/tools/create_repeat.py:84 | a URL with one `browser_id=N` gets `browser_id={browser_id}` in its place and nothing else changes |
| RepeatCommon.DropTimeoutOnce | _hp/hp/tools/create_repeat.py:48 | a URL with one `timeout=N&` loses exactly that parameter |
| RepeatCommon.DistinctSpec | _hp/hp/tools/create_repeat.py:62-67 | the categories of the browser id column hold every browser of the data and none twice |
| RepeatCommon.BrowserIds | _hp/hp/tools/create_repeat.py:62 | the browser id column, row by row |
| RepeatCommon.Count | _hp/hp/tools/create_repeat.py:67 | `value_counts` of a (test, browser) group is at most the number of rows and is 0 exactly when no row has that test and browser |
| RepeatCommon.FirstRowsSpec | _hp/hp/tools/create_repeat.py:72 | `drop_duplicates(subset=["test_id"])` keeps, for every test id present, exactly its first row, and no test id twice |
| RepeatCommon.FirstRowsFirst | _hp/hp/tools/create_repeat.py:72 | every kept row is the first of its test id |
| RepeatCommon.FirstRowsCover | _hp/hp/tools/create_repeat.py:72 | every test id of the data has a kept row |
| RepeatCommon.FirstRowsDistinct | _hp/hp/tools/create_repeat.py:72 | no two kept rows share a test id |
| RepeatCommon.FirstOfIn | _hp/hp/tools/create_repeat.py:72 | the first row of a test id is kept |
| RepeatCommon.FirstIndexUnique | _hp/hp/tools/create_repeat.py:72 | a test id has only one first row |
| RepeatCommon.Insert | _hp/hp/tools/create_repeat.py:79-106 | adding a URL to `to_repeat[browser_id]` creates the set on a missing key and leaves every other key alone |
| RepeatCommon.BuildSetEntries | _hp/hp/tools/create_repeat.py:73-106 | the dictionary built from (browser, URL) entries has exactly the browsers of the entries as keys, each with exactly its URLs, and no empty set |
| RepeatCommon.BuildSetEmpty | _hp/hp/tools/create_repeat.py:73 | no entries give the empty dictionary |
| RepeatCommon.InsertBuildSet | _hp/hp/tools/create_repeat.py:79-106 | adding one entry to the dictionary is building it from the entries plus that one |
| RepeatCommon.CollectErr | _hp/hp/tools/create_repeat.py:76-106 | the loop raises exactly when some row raises |
| RepeatCommon.CollectContents | _hp/hp/tools/create_repeat.py:76-106 | without an error, a browser is a key exactly when some row yields it, and a URL is in its set exactly when some row yields that pair |
| RepeatCommon.CollectStep | _hp/hp/tools/create_repeat.py:76-106 | one more successful row inserts its entry into the dictionary built so far |
| RepeatCommon.CollectStepErr | _hp/hp/tools/create_repeat.py:76-106 | the first row that raises decides the error |
| RepeatCommon.RepeatDict.constructor | _hp/hp/tools/create_repeat.py:73 | `to_repeat` starts empty |
| RepeatCommon.RepeatDict.AddUrl | _hp/hp/tools/create_repeat.py:79-106 | the URL joins the set of its browser key, created when missing; every other key is unchanged |
| CreateRepeat.Query | _hp/hp/tools/create_repeat.py:25-34 | the data holds exactly the rows of a known browser, a non-debug response and test_status 0 that the selection accepts, each as many times as the table holds it (so the per-browser counts are the table's) |
| CreateRepeat.CleanUrlPlain | _hp/hp/tools/create_repeat.py:36-49 | a URL with none of the four parameters is left unchanged by clean_url |
| CreateRepeat.TestIdFields | _hp/hp/tools/create_repeat.py:52-61 | a test id is built from eight fields |
| CreateRepeat.DecimalNoUnderscore | _hp/hp/tools/create_repeat.py:61 | a decimal number has no underscore |
| CreateRepeat.TestIdSplits | _hp/hp/tools/create_repeat.py:61 | when no field holds an underscore, splitting the test id at `_` gives back the eight fields |
| CreateRepeat.TestIdInjective | _hp/hp/tools/create_repeat.py:61-67 | for such rows two test ids are equal exactly when the eight fields are, so rows grouped together share the response id |
| CreateRepeat.PendingOf | _hp/hp/tools/create_repeat.py:67-69 | for one test, the browsers with fewer than five results are exactly those scheduled |
| CreateRepeat.PendingAll | _hp/hp/tools/create_repeat.py:67-72 | over all kept rows, a (browser, row) pair is scheduled exactly when it has fewer than five results |
| CreateRepeat.PendingByIff | _hp/hp/tools/create_repeat.py:62-72 | a pair is scheduled exactly when the row is the first of its test, the browser occurs in the data, and the test has fewer than five results in that browser |
| CreateRepeat.PendingIff | _hp/hp/tools/create_repeat.py:62-72 | the same, for the composite test id |
| CreateRepeat.CompleteNotPending | _hp/hp/tools/create_repeat.py:68-69 | a test with five or more results in a browser is not repeated there |
| CreateRepeat.RetryUrl | _hp/hp/tools/create_repeat.py:77-103 | building a retry URL raises exactly when the full URL has no `timeout=` (IndexError), or it has popups and the ids do not allow it: multiple response ids, a missing first or last id, different first and last ids, or a missing popup field |
| CreateRepeat.RetryUrlShape | _hp/hp/tools/create_repeat.py:84-103 | a successful retry URL is the rewritten URL with `?timeout={2·old}&` put at its first `?`, followed when popups are set by the three popup parameters |
| CreateRepeat.RetryUrlNoQuery | _hp/hp/tools/create_repeat.py:95 | without a `?` and without popups the retry URL is the rewritten URL |
| CreateRepeat.RetryCarriesBrowser | _hp/hp/tools/create_repeat.py:84 | with multiple response ids allowed, the rewritten URL names the scheduled browser in place of the original id |
| CreateRepeat.SingleIdRewrite | _hp/hp/tools/create_repeat.py:90-91 | the one `first_id` or `last_id` of a URL is set to the row's response id |
| CreateRepeat.ToRepeatErr | _hp/hp/tools/create_repeat.py:76-106 | `calc_repeat` raises exactly when some scheduled pair's retry URL raises |
| CreateRepeat.ToRepeatContents | _hp/hp/tools/create_repeat.py:76-109 | otherwise repeat.json's keys are exactly the scheduled browsers, and each holds exactly the retry URLs of its scheduled rows |
| CreateRepeat.EntriesContents | _hp/hp/tools/create_repeat.py:76-106 | the same, for any list of scheduled pairs |
| CreateRepeat.EntryOfRetry | _hp/hp/tools/create_repeat.py:77-105 | one scheduled pair adds its retry URL under its browser id as a string, and raises exactly when the retry URL does |
| CreateRepeat.CalcRepeat | _hp/hp/tools/create_repeat.py:14-109 | the method returns the dictionary the specification builds, or its error |
| CreateRepeat.FillRepeat | _hp/hp/tools/create_repeat.py:73-106 | the row loop fills `to_repeat` exactly as the collection of the scheduled pairs' entries |
| CreateRepeatOld.Query | _hp/tools/create_repeat.py:16-24 | the data holds exactly the rows of a known browser and a non-debug response, finished or not |
| CreateRepeatOld.CleanUrlPlain | _hp/tools/create_repeat.py:26-30 | a URL with none of the three parameters is left unchanged by clean_url |
| CreateRepeatOld.Finished | _hp/tools/create_repeat.py:37 | the grouping sees exactly the rows with test_status 0 |
| CreateRepeatOld.MaxCount | _hp/tools/create_repeat.py:38 | `max_c` is the largest number of distinct browsers of any group, and 0 without groups |
| CreateRepeatOld.UnionIff | _hp/tools/create_repeat.py:41-51 | an entry is collected exactly when some group yields it |
| CreateRepeatOld.RowEntriesIff | _hp/tools/create_repeat.py:39-51 | a group yields (browser, URL) exactly when its browser count differs from `max_c`, the browser occurs in the data but not in the group, and the URL is the cleaned URL with that browser id |
| CreateRepeatOld.EntriesOfIff | _hp/tools/create_repeat.py:41-51 | the entries of a list of groups are those some group of it schedules |
| CreateRepeatOld.ScheduledByGroup | _hp/tools/create_repeat.py:37 | rows with the same group key and cleaned URL schedule the same entries |
| CreateRepeatOld.GroupEntriesIff | _hp/tools/create_repeat.py:37-51 | taking one row per group schedules exactly what any finished row schedules |
| CreateRepeatOld.ToRepeatOldContents | _hp/tools/create_repeat.py:14-53 | a URL is in repeat.json under a browser exactly when some finished row's group schedules that browser and URL |
| CreateRepeatOld.CompleteGroupNotRepeated | _hp/tools/create_repeat.py:38-39 | a group finished in every browser of the data reaches `max_c` |
| CreateRepeatOld.RepeatedIffMissing | _hp/tools/create_repeat.py:38-39 | when some group is complete, a group is repeated exactly when it lacks some browser of the data |
| CreateRepeatOld.DifferenceEmpty | _hp/tools/create_repeat.py:35-39 | a subset of the browsers is smaller exactly when some browser is missing from it |
| CreateRepeatOld.GroupEntriesAdd | _hp/tools/create_repeat.py:43-51 | one more missing browser adds exactly its (id, URL) entry |
| CreateRepeatOld.AddGroupStep | _hp/tools/create_repeat.py:43-51 | inserting one browser's URL into the dictionary is building it with that entry added |
| CreateRepeatOld.EntriesOfStep | _hp/tools/create_repeat.py:41-51 | one more group adds exactly its entries |
| CreateRepeatOld.CalcRepeatOld | _hp/tools/create_repeat.py:14-53 | the method returns the dictionary the specification builds |
| CreateRepeatOld.FillRepeatOld | _hp/tools/create_repeat.py:40-51 | the group loop fills `to_repeat` with exactly the entries of the groups |
| CreateRepeatOld.AddRow | _hp/tools/create_repeat.py:41-51 | one group's iteration adds exactly that group's entries to the dictionary |
| CreateRepeatOld.AddGroup | _hp/tools/create_repeat.py:42-51 | the inner loop adds one entry per missing browser |
| CreateRepeatOld.AddBrowser | _hp/tools/create_repeat.py:44-51 | one browser's iteration adds its entry |
| Strings.UpperChar | _hp/hp/tools/response_header_generation.py:39 | `str.upper` on one character: an ASCII lower-case letter moves 32 code points down, every other character is unchanged |
| Strings.LowerChar | _hp/hp/tools/response_header_generation.py:40 | `str.lower` on one character: an ASCII upper-case letter moves 32 code points up, every other character is unchanged |
| Strings.Upper | _hp/hp/tools/response_header_generation.py:39 | `str.upper` keeps the length and maps every character |
| Strings.Lower | _hp/hp/tools/response_header_generation.py:40 | `str.lower` keeps the length and maps every character |
| Strings.CaseAbsorbs | _hp/hp/tools/response_header_generation.py:39-41 | upper and lower case are idempotent and each absorbs the other |
| Strings.ReplaceAllAbsent | _hp/hp/tools/response_header_generation.py:45-47 | `str.replace` of a substring that does not occur returns the string unchanged |
| Strings.ReplaceAllInserts | _hp/hp/tools/response_header_generation.py:377 | replacing a substring that occurs puts the replacement into the result |
| Strings.ReplaceAllSelf | _hp/hp/tools/response_header_generation.py:88-90 | replacing a substring by itself is the identity, which is why the generator skips `rp == char` |
| Strings.ReplaceCharByChar | _hp/hp/tools/response_header_generation.py:90 | replacing one character by another keeps the length and changes exactly the occurrences |
| Strings.ReplaceCharByNothing | _hp/hp/tools/response_header_generation.py:45 | deleting a character never lengthens a string and shortens it when the character occurs |
| Strings.Split | _hp/server/store_results.py:29 | `str.split(c)` always yields at least one piece |
| Strings.SplitJoin | _hp/server/store_results.py:29 | joining the pieces with the separator gives back the string, and no piece holds the separator |
| Strings.JoinSplit | _hp/hp/tools/create_repeat.py:61 | splitting a join of separator-free pieces gives back the pieces |
| Strings.SplitNoSeparator | _hp/server/store_results.py:29 | a string without the separator is a single piece |
| Strings.LastPieceIsSuffix | _hp/server/store_results.py:29 | `split(c)[-1]` is the separator-free suffix after the last separator, or the whole string without one |
| Strings.StripLeft | _hp/hp/tools/crawler/android_intent.py:57 | the left strip is a suffix of the input; every character dropped in front is white space and the result does not start with white space |
| Strings.StripRight | _hp/hp/tools/crawler/android_intent.py:57 | the right strip is a prefix of the input; every character dropped at the end is white space and the result does not end with white space |
| Strings.LeadingSpace | _hp/hp/tools/crawler/android_intent.py:57 | the length of the white space that `lstrip()` drops: every character before it is white space and the one at it is not |
| Strings.TrailingSpace | _hp/hp/tools/crawler/android_intent.py:57 | the length of the white space that `rstrip()` drops: every character after the kept part is white space and the last kept one is not |
| Strings.Strip | _hp/hp/tools/crawler/android_intent.py:57 | `str.strip()` never lengthens the string and neither starts nor ends with white space (that it is the slice between the dropped white space is `StripSlice`) |
| Strings.StripSlice | _hp/hp/tools/crawler/android_intent.py:57 | `str.strip()` is a slice of the input, and everything in front of it and after it is white space |
| Strings.StripUnique | _hp/hp/tools/crawler/android_intent.py:57 | white space, then `r`, then white space strips to `r` whenever `r` has no white space at its ends: the strip is the only such slice |
| Strings.AllSpaceStrip | _hp/hp/tools/crawler/android_intent.py:57 | `s.strip()` is empty exactly when every character of `s` is white space |
| Strings.StripIdempotent | _hp/hp/tools/crawler/android_intent.py:57 | stripping a stripped string changes nothing |
| Strings.NatToString | _hp/hp/tools/create_repeat.py:95 | `str(n)` of a natural number is a non-empty string of digits |
| Strings.NatToStringValue | _hp/hp/tools/create_repeat.py:94 | reading back the digits of `str(n)` gives `n` |
| Strings.ParseIntToString | _hp/hp/tools/crawler/android_intent.py:99-103 | `int(str(i)) == i` for every integer |
| Strings.IntToStringInjective | _hp/hp/tools/create_repeat.py:77 | different integers have different decimal strings, so browser-id keys do not collide |
| HeaderMutations.RandomizeCasing | _hp/hp/tools/response_header_generation.py:22-25 | the result has the input's length and every character is the upper or the lower case of the input's |
| HeaderMutations.RandomizeCasingIdempotent | _hp/hp/tools/response_header_generation.py:22-25 | with the seed reset on every call, randomizing an already randomized string changes nothing |
| HeaderMutations.RandomizeCasingPrefix | _hp/hp/tools/response_header_generation.py:24-25 | the casing of a prefix does not depend on what follows it |
| HeaderMutations.RandomizeCasingIgnoringCase | _hp/hp/tools/response_header_generation.py:22-25 | ignoring case, the randomized string is the input |
| HeaderMutations.InsertCharMiddle | _hp/hp/tools/response_header_generation.py:27-30 | the result is as long as the input and the inserted text together |
| HeaderMutations.InsertCharMiddleSplit | _hp/hp/tools/response_header_generation.py:27-30 | the inserted text sits at `len // 2`, and removing it gives back the input |
| HeaderMutations.Without | _hp/hp/tools/response_header_generation.py:86-89 | dropping a value from a list keeps every other element and removes each occurrence of it |
| HeaderMutations.ReplacementsOf | _hp/hp/tools/response_header_generation.py:87-90 | the replacements of one character are exactly `replace(c, rp)` for every `rp` of the list other than `c` itself |
| HeaderMutations.ReplacementsFrom | _hp/hp/tools/response_header_generation.py:85-90 | every replacement function replaces a listed character by a different listed string |
| HeaderMutations.ReplaceFuncsNoIdentity | _hp/hp/tools/response_header_generation.py:71-90 | every member of `replace_funcs` replaces a character of `chars_to_replace` by an entry of `replace_chars` other than the character itself |
| HeaderMutations.ReplaceCharsShort | _hp/hp/tools/response_header_generation.py:73-84 | every replacement is at most one character long |
| HeaderMutations.ReplaceChanges | _hp/hp/tools/response_header_generation.py:90 | replacing a present character by a different string of at most one character changes the value |
| HeaderMutations.ReplaceFuncsChange | _hp/hp/tools/response_header_generation.py:85-90 | a replacement function applied to a value holding its character never returns the value unchanged |
| HeaderMutations.CaseMutationsIgnoringCase | _hp/hp/tools/response_header_generation.py:39-41 | all_upper, all_lower and random_case keep the length and are equal to the input ignoring (ASCII) case |
| HeaderMutations.InsertingMutations | _hp/hp/tools/response_header_generation.py:57-68 | a leading, trailing or middle insertion adds exactly its text; leading keeps the input as suffix, trailing as prefix |
| HeaderMutations.MutantsStep | _hp/hp/tools/response_header_generation.py:126-127 | one more mutation adds exactly its result to the set |
| HeaderMutations.MutantsCard | _hp/hp/tools/response_header_generation.py:124-128 | the set holds at most one value per mutation: duplicates collapse |
| HeaderMutations.MutateHeaderValue | _hp/hp/tools/response_header_generation.py:124-128 | the loop returns exactly the set of the mutations' results |
| HeaderMutations.MutateHeaderName | _hp/hp/tools/response_header_generation.py:118-122 | a header name's mutants are the general mutations' results |
| HeaderMutations.ListSet | _hp/hp/tools/response_header_generation.py:194-215 | a `for` loop over a returned set visits every element once, in some order |
| HeaderTestSuite.MakeRespShape | _hp/hp/tools/response_header_generation.py:166-169 | a response holds the given headers followed by base_resp, with the given label, status code and response type |
| HeaderTestSuite.NamedValue | _hp/hp/tools/response_header_generation.py:191-195 | one response per header name |
| HeaderTestSuite.NameTestsCount | _hp/hp/tools/response_header_generation.py:182-195 | header_name_tests emits `|valid| × (1 + |alt_names| + |mutated names|)` responses |
| HeaderTestSuite.NameTestsShape | _hp/hp/tools/response_header_generation.py:186-195 | every such response holds one header: the correct, an alternative or a mutated name with a valid value |
| HeaderTestSuite.SingleValues | _hp/hp/tools/response_header_generation.py:201-203 | one response per legacy or other value |
| HeaderTestSuite.ListedSnoc | _hp/hp/tools/response_header_generation.py:206-216 | listing one more valid value's mutants keeps the listing aligned with the valid values |
| HeaderTestSuite.CodeBlockShape | _hp/hp/tools/response_header_generation.py:209-213 | ten responses, one per status code in order; exactly 300 and 302 add the redirect header after the first header |
| HeaderTestSuite.ParsingForCount | _hp/hp/tools/response_header_generation.py:207-216 | one valid value gives the ten status-code responses followed by one per mutant |
| HeaderTestSuite.ParsingTestsStatus | _hp/hp/tools/response_header_generation.py:197-216 | every parsing response has status 200 or a listed code, one header beyond base_resp, and two with the redirect in second place exactly for 3xx |
| HeaderTestSuite.HeadersOf | _hp/hp/tools/response_header_generation.py:231 | one header per value of the order |
| HeaderTestSuite.Separate | _hp/hp/tools/response_header_generation.py:230-232 | one response per order |
| HeaderTestSuite.Mixed | _hp/hp/tools/response_header_generation.py:260-265 | one header per value of the order |
| HeaderTestSuite.TakeTwo | _hp/hp/tools/response_header_generation.py:272 | `other_values[:2]`: the first two values, or all of them when fewer |
| HeaderTestSuite.JoinedAt | _hp/hp/tools/response_header_generation.py:224-227 | three responses per order; response `3i + j` joins order `i` with `", "`, `"; "` or `" "` |
| HeaderTestSuite.SplitsCount | _hp/hp/tools/response_header_generation.py:235-240 | two split responses per order when the orders have at least three values, none otherwise |
| HeaderTestSuite.OrdersLength | _hp/hp/tools/response_header_generation.py:221-222 | every order holds all valid values |
| HeaderTestSuite.InvalidsShape | _hp/hp/tools/response_header_generation.py:269-276 | every invalid-value response pairs a valid value with one of the invalid values |
| HeaderTestSuite.InvalidsCount | _hp/hp/tools/response_header_generation.py:269-276 | four responses per (valid, invalid) pair |
| HeaderTestSuite.MultTestsCount | _hp/hp/tools/response_header_generation.py:218-276 | mult_headers_tests emits `6·n! + (2·n! if n ≥ 3) + 4n + 4nm` responses for `n` valid values and `m = min(2, |other_values|)` |
| HeaderTestSuite.MixedForCount | _hp/hp/tools/response_header_generation.py:257-266 | two responses per order, one per name pairing |
| HeaderTestSuite.MixedShape | _hp/hp/tools/response_header_generation.py:261-265 | the first header uses the first name and every later one the second |
| HeaderTestSuite.HeaderTests.constructor | _hp/hp/tools/response_header_generation.py:143-164 | the fields take the arguments and the response list starts empty |
| HeaderTestSuite.HeaderTests.CreateResponse | _hp/hp/tools/response_header_generation.py:166-169 | appends one response: the header followed by base_resp, with the label, status and type |
| HeaderTestSuite.HeaderTests.EmitNames | _hp/hp/tools/response_header_generation.py:191-195 | appends one response per header name with the value |
| HeaderTestSuite.HeaderTests.EmitValues | _hp/hp/tools/response_header_generation.py:202-203 | appends one response per value under the correct name |
| HeaderTestSuite.HeaderTests.NameValueTests | _hp/hp/tools/response_header_generation.py:187-195 | one value under the correct name, the alternative names and the mutated names, in that order |
| HeaderTestSuite.HeaderTests.HeaderNameTests | _hp/hp/tools/response_header_generation.py:182-195 | header_name_tests appends the name tests of every valid value, with the mutated names listing the mutants of the header name |
| HeaderTestSuite.HeaderTests.ValuesNameTests | _hp/hp/tools/response_header_generation.py:186-195 | the value loop appends each value's name tests in order |
| HeaderTestSuite.HeaderTests.StatusCodeTests | _hp/hp/tools/response_header_generation.py:209-213 | appends the ten status-code responses of a value |
| HeaderTestSuite.HeaderTests.ValueParsingTests | _hp/hp/tools/response_header_generation.py:207-216 | appends the status-code responses and then one response per mutant of the value |
| HeaderTestSuite.HeaderTests.ParsingTests | _hp/hp/tools/response_header_generation.py:197-216 | parsing_tests appends the legacy and other values, then each valid value's parsing responses |
| HeaderTestSuite.HeaderTests.JoinedOrderTests | _hp/hp/tools/response_header_generation.py:225-227 | appends the three joined responses of one order |
| HeaderTestSuite.HeaderTests.JoinedTests | _hp/hp/tools/response_header_generation.py:224-227 | appends them for every order |
| HeaderTestSuite.HeaderTests.SeparateTests | _hp/hp/tools/response_header_generation.py:230-232 | appends one response per order with one header per value |
| HeaderTestSuite.HeaderTests.SplitOrderTests | _hp/hp/tools/response_header_generation.py:236-240 | appends the two split responses of an order with at least three values, nothing otherwise |
| HeaderTestSuite.HeaderTests.SplitTests | _hp/hp/tools/response_header_generation.py:235-240 | appends them for every order |
| HeaderTestSuite.HeaderTests.DuplicateValueTests | _hp/hp/tools/response_header_generation.py:244-252 | appends the four duplicate responses of a value |
| HeaderTestSuite.HeaderTests.DuplicateTests | _hp/hp/tools/response_header_generation.py:243-252 | appends them for every valid value |
| HeaderTestSuite.HeaderTests.MixedHeaders | _hp/hp/tools/response_header_generation.py:260-265 | the first value gets the first name, every later one the second |
| HeaderTestSuite.HeaderTests.MixedOrderTests | _hp/hp/tools/response_header_generation.py:258-266 | appends one response per name pairing of an order |
| HeaderTestSuite.HeaderTests.MixedNameTests | _hp/hp/tools/response_header_generation.py:257-266 | appends them for every order |
| HeaderTestSuite.HeaderTests.InvalidPairTests | _hp/hp/tools/response_header_generation.py:273-276 | appends the four responses of a (valid, invalid) pair |
| HeaderTestSuite.HeaderTests.InvalidValueTests | _hp/hp/tools/response_header_generation.py:272-276 | appends them for every invalid value |
| HeaderTestSuite.HeaderTests.InvalidTests | _hp/hp/tools/response_header_generation.py:269-276 | appends them for every valid value and the first two other values |
| HeaderTestSuite.HeaderTests.MultHeadersTests | _hp/hp/tools/response_header_generation.py:218-276 | mult_headers_tests appends its six groups in order over all permutations of the valid values |
| HeaderTestSuite.HeaderTests.CreateAllTests | _hp/hp/tools/response_header_generation.py:278-281 | appends the name tests, the parsing tests and the multiple-header tests, in that order |
| MultHeaderSuite.Lookup | _hp/hp/tools/response_header_generation.py:324-325 | `self.values[org_header]` is missing (KeyError) exactly when no entry has that key, and otherwise is an entry's list |
| MultHeaderSuite.MaxLen | _hp/hp/tools/response_header_generation.py:321 | the length of the longest value list: no list is longer, some list reaches it, and it is 0 without lists |
| MultHeaderSuite.FirstBadName | _hp/hp/tools/response_header_generation.py:323-325 | no error is found exactly when every header name has a non-empty value list |
| MultHeaderSuite.FirstBadNameIsFirst | _hp/hp/tools/response_header_generation.py:323-325 | the reported error belongs to the first header name without a usable list: a missing key or an empty list |
| MultHeaderSuite.MutatedPairs | _hp/hp/tools/response_header_generation.py:310 | one (original, mutated) pair per mutant |
| MultHeaderSuite.MutatedHeaders | _hp/hp/tools/response_header_generation.py:308-310 | one list of pairs per header name |
| MultHeaderSuite.Pick | _hp/hp/tools/response_header_generation.py:313 | one list of pairs per position of the chosen order |
| MultHeaderSuite.MutatedOrderShape | _hp/hp/tools/response_header_generation.py:312-316 | every header tuple takes the header names in some permutation, each position carrying one mutant of its name |
| MultHeaderSuite.FirstOrderIsIdentity | _hp/hp/tools/response_header_generation.py:312-316 | the first tuple keeps the names in their given order, each with its first listed mutant |
| MultHeaderSuite.BasicMutantsNonEmpty | _hp/hp/tools/response_header_generation.py:310 | a name always has at least one basic mutant, so no mutated list is empty |
| MultHeaderSuite.OrderHeadersCyclable | _hp/hp/tools/response_header_generation.py:318-325 | when every name has a non-empty list, every header of every tuple can be cycled without error |
| MultHeaderSuite.CycleHeaders | _hp/hp/tools/response_header_generation.py:322-325 | one response header per header of the tuple |
| MultHeaderSuite.MultHeaderCount | _hp/hp/tools/response_header_generation.py:318-327 | `max length` responses per header tuple |
| MultHeaderSuite.MultHeaderAt | _hp/hp/tools/response_header_generation.py:318-327 | response `i` of tuple `t` carries the label, status 200, one header per tuple entry plus base_resp, and header `k` is the mutated name with value `i mod len` of its original name's list |
| MultHeaderSuite.HeaderTestsMultHeader.constructor | _hp/hp/tools/response_header_generation.py:289-300 | the fields take the arguments and the response list starts empty; the name and value counts agree, as the assertion requires |
| MultHeaderSuite.HeaderTestsMultHeader.CreateResponse | _hp/hp/tools/response_header_generation.py:166-169 | appends one response: the header followed by base_resp |
| MultHeaderSuite.HeaderTestsMultHeader.MutateHeaders | _hp/hp/tools/response_header_generation.py:307-310 | one listing of the basic mutants per header name, paired with the original name |
| MultHeaderSuite.HeaderTestsMultHeader.CycleValues | _hp/hp/tools/response_header_generation.py:322-325 | the response headers of one index: each mutated name with its original name's value at that index, cycled |
| MultHeaderSuite.HeaderTestsMultHeader.TupleTests | _hp/hp/tools/response_header_generation.py:321-327 | appends one response per index below the longest list length for one tuple |
| MultHeaderSuite.HeaderTestsMultHeader.OrderTests | _hp/hp/tools/response_header_generation.py:318-327 | appends them for every tuple, in order |
| MultHeaderSuite.HeaderTestsMultHeader.CreateAllTests | _hp/hp/tools/response_header_generation.py:302-327 | raises exactly as the source does (no value lists at all, a missing key, an empty list) and then appends nothing; otherwise appends the cycled responses of every mutated header order |
| ExpandUrls.AllReplacements | _hp/hp/tools/response_header_generation.py:343-359 | fifteen URL-like values; all but the upper-cased origin and the cross-site origin contain the browser host, the upper-cased one is `HTTPS://SUB.{host}` upper-cased, and the last is `https://{alt_host}` |
| ExpandUrls.HostIn | _hp/hp/tools/response_header_generation.py:344-357 | a value built by prefixing the host contains the host |
| ExpandUrls.ExpansionsOf | _hp/hp/tools/response_header_generation.py:369-377 | a value without `<!URL!>` is kept as it is; one with it becomes one value per replacement, every occurrence replaced by that replacement |
| ExpandUrls.ExpandValues | _hp/hp/tools/response_header_generation.py:366-378 | the loop returns the values' expansions concatenated in order |
| ExpandUrls.ExpandedMember | _hp/hp/tools/response_header_generation.py:366-378 | a value is returned exactly when it is an input value without the marker or an input value with the marker replaced by some replacement |
| ExpandUrls.ExpandedCount | _hp/hp/tools/response_header_generation.py:366-378 | the output has one entry per plain value and one per replacement for every value with the marker |
| ExpandUrls.ExpandedPlain | _hp/hp/tools/response_header_generation.py:370-371 | values without the marker come back unchanged |
| ExpandUrls.DefaultOtherValues | _hp/hp/tools/response_header_generation.py:391-394 | the default other values `["", "INVALID"]` survive expansion unchanged, so `other_values[:2]` stays the empty and the invalid value |
| ExpandUrls.NotContainsShort | _hp/hp/tools/response_header_generation.py:370 | a string shorter than the marker, or as long but different, does not contain it |
| Itertools.RemoveAt | _hp/hp/tools/response_header_generation.py:222 | removing one position leaves the other elements |
| Itertools.PrependAll | _hp/hp/tools/response_header_generation.py:313 | one tuple per input tuple with the element in front |
| Itertools.PermutationsCount | _hp/hp/tools/response_header_generation.py:222 | `permutations(xs)` yields `len(xs)!` orders |
| Itertools.PermutationsArePermutations | _hp/hp/tools/response_header_generation.py:314 | every order rearranges exactly the input's elements |
| Itertools.PermutationsFirst | _hp/hp/tools/response_header_generation.py:314 | the first order is the input order |
| Itertools.ProductCount | _hp/hp/tools/response_header_generation.py:313 | `product(*lists)` yields the product of the lengths |
| Itertools.ProductShape | _hp/hp/tools/response_header_generation.py:313 | every tuple takes one element from each list, in list order |
| Itertools.ProductFirst | _hp/hp/tools/response_header_generation.py:313 | with no list empty, the first tuple takes every list's first element |
| Itertools.Range | _hp/hp/tools/response_header_generation.py:314 | `range(n)` is `0, …, n-1` |
| Itertools.IndexOrderInRange | _hp/hp/tools/response_header_generation.py:313-314 | every order of `range(n)` has `n` positions, each an index below `n` |

## Left out

- Database, file and network I/O are not modelled:
  - `save_responses` and the `get_or_create` upsert;
  - the query and `get_data` of both reconcilers, whose rows are an input sequence here;
  - `json.load` and `json.dump` of `repeat.json` and of the configuration, whose contents are parameters;
  - the session commit of the result store;
  - the HTTP loop of `get_chunks.py`.
- The module-level notebook cells of `response_header_generation.py` are not modelled: the per-header value tables and the three-path config loading. The hosts `browser_host` and `alternate_hosts.alt` and the header `redirect_empty` are parameters.
- `get_values`, `get_crawler_values`, `get_wpt_values`, `limit_url_occurrences`, `replace_multiple_urls` and `run_replacements` are not modelled. They read files or rely on regex features (`count=`, `{3,}`, `\S+`, alternation with backtracking) beyond the token patterns of `Patterns`.
- Browser and emulator automation is not modelled: driving Selenium, windows, `WebDriverWait`, `worker_function`, `kill_processes` and `clean_dirs`.
  - Of `run_task`, only the page loads and the timeout rule are modelled.
  - Of the Android crawler, the shell commands are values of a `Command` datatype. The `adb devices` output is a string input. `subprocess`, `time.sleep`, `np.array_split` and the `Pool` in `main` are not modelled.
- Concurrency is not modelled: the multiprocessing `Pool`s run the planned argument tuples, and only the list of tuples is modelled.
- TIMEOUT and the chunk/popup-planning `get_tests` of `_hp/hp/tools/crawler/utils.py` are parameters of the newer desktop planner (`Env.timeout`, `Env.getTests`), because that module is not part of this model. The older planner uses the modelled `get_tests` of `_hp/tools/crawler/utils.py`.
- The `fetch` branch of `run_tests` is modelled only as far as the ids it yields, which are a parameter. The declared tests' own DOM behaviour is not modelled: `nested_test`, `save_result` and `testing.js`.
- HeaderMutations.RandomizeCasing: Python's Mersenne Twister is not modelled. The choice stream of `random.seed(42)` is the parameter `rnd` (position `i` picks upper or lower case). This is exact because the seed is reset on every call and `random.choice` of a two-element list does not look at the characters. The concrete casing that seed 42 produces is not stated.
- Strings.UpperChar: only ASCII letters are mapped; Python's `str.upper()` also maps other Unicode letters (and can lengthen a string, as with `ß`).
- Strings.LowerChar: only ASCII letters are mapped, as for `UpperChar`.
- Strings.IsSpace: Python's `strip()` and JavaScript's `parseInt` use slightly different white-space sets. One set is used for both: ASCII white space, the separators U+001C to U+001F, NEL and NO-BREAK SPACE. Other Unicode spaces are not included.
- Strings.ParseInt: `int()` is modelled for an optional sign and ASCII digits. Python also accepts surrounding white space, `_` separators and non-ASCII digits; the model rejects those.
- Patterns.ClassRun: `\d` and `\w` are ASCII classes here (`0-9`, and `a-z`, `A-Z`, `0-9`, `_`). Python's `re` on `str` patterns also matches other Unicode digits and letters, so a URL such as `timeout=٣` matches `timeout=(\d+)` in the source but not in the model. This concerns the rewrites and searches of both reconcilers and the `timeout=` reading of the desktop run; the model covers URLs whose parameters are ASCII.
- CreateRepeatOld.Finished: the eight grouping columns are plain strings here. pandas' `groupby` drops a row with a NULL in any of the seven key columns other than `clean_url` (`dropna=True`), and several of those columns are nullable in the result table, so such a finished row is neither counted nor scheduled in the source. The model groups every finished row. A NULL `full_url` never reaches the grouping: see the `RepeatCommon.Row` line.
- RepeatCommon.Row: every column of a result row is taken as present (non-NULL). In the result table `full_url` is nullable and the results handler does not set it. For a row without it, both reconcilers' `df["full_url"].apply(clean_url)` raises TypeError (`re.sub` on None) before any grouping, so the whole run fails. The model does not capture that failure. Likewise the newer reconciler writes a NULL test-id field as the text `None`, and the model has no such field value.
- CreateRepeat.ToRepeatErr: when several scheduled pairs raise, the model reports the first failing pair in its own loop order: test ids and browser ids each in order of first appearance. The source's loop runs over `value_counts` output, sorted by the categorical test id and then by count, so it may report a different one of the errors. Whether `calc_repeat` fails is stated exactly; which error it reports is not.
- RepeatCommon.CollectStepErr: the generic collection loop reports the error of the first failing entry in the order the entries are given. For the newer reconciler that order is first appearance of test ids and browser ids, not the source's `value_counts` order, so when several entries raise the reported error may differ from the source's.
- AndroidIntent.EmulatorAvdName: the port arithmetic is exact integer arithmetic. The source divides with float `/` (`int((P - 5554) / 2 + 1)`), which agrees with the model for ports below 5554 + 2^53, and adb console ports stay below 65536. Above that the source's float rounding (for example `emulator-9007199254746549` gives "4503599627370499" in the source and "4503599627370498" here) and the `OverflowError` for ports of about 309 digits are not modelled. The same bound applies to `AndroidIntent.AvdNameOfPort`.
- AndroidIntent.TruncHalf: integer halving toward zero. It equals Python's `int(x / 2)` only while x / 2 is exact as a float (|x| < 2^53).
- HeaderMutations.ListSet: the order in which a Python `set` is listed depends on string hashing and is not modelled. Callers take whatever listing `ListSet` returns, and their contracts hold for every order.
- HeaderTestSuite.HeaderTests.constructor: a `None` base_resp is modelled as the empty list. `if self.base_resp:` treats the two alike.
- MultHeaderSuite.HeaderTestsMultHeader.constructor: the `assert len(header_names) == len(values)` is a precondition rather than an `AssertionError` result. The keys of the `values` dict are distinct by construction.
- MultHeaderSuite.HeaderTestsMultHeader.CreateAllTests: the unused `all_header_orders` list is not built. The Python code raises in the middle of its first header tuple; the model checks the same condition first and then appends nothing. The two agree because the first tuple lists every header name in order and no earlier response is appended (`FirstOrderIsIdentity`, `FirstBadNameIsFirst`). An error is reported as which condition failed: `NoValues` for the `TypeError` of `len(0)`, `MissingKey` for the `KeyError`, and `ZeroLength` for the `ZeroDivisionError`. The exception text is not modelled.
- RespIds.RespIdCache.GetRespIds: the store is an explicit parameter, and a failing query is a flag of it. The order of the ids is the store's order. The `lru_cache` is unbounded in the source, and so is the map here.
- The JavaScript `||` defaults of `run_tests` are modelled on URL parameters already parsed to `Option<int>` (`TestPage.ParamInt`). The model does not cover JavaScript number semantics beyond integers, such as NaN arithmetic or floating point.
- The exact size of `general_mutations` (`9 + 3·131 + |replace_funcs|`) is not stated. `HeaderMutations.MutantsCard` bounds the set by the length of whatever mutation list is given.
