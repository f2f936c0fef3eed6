/**
 * The run planner of the desktop Selenium crawler (_hp/hp/tools/crawler/desktop_selenium.py):
 * the `__main__` loop that turns test URLs into worker argument tuples, one per
 * chunk of at most `max_urls_until_restart` URLs, for every (scheme, browser)
 * pair; the alternative plan read from a page-runner JSON list; and the
 * per-URL page loads and wait timeout of `run_task`.
 *
 * Everything the planner reads from outside is an explicit input (`Env`):
 * TIMEOUT (defined in a utility module that is not part of this model), the log
 * path (built from the clock), the random page-runner token, the URL lists that
 * `get_tests` would produce, and the contents of repeat.json.
 */
module DesktopSelenium {
  import opened Common
  import opened Strings
  import opened Patterns
  import opened Chunking

  /** `--run_mode`; argparse admits only these two choices. */
  datatype RunMode = RunAll | Repeat

  /** One entry of the browser configuration list. */
  datatype BrowserConfig = BrowserConfig(
    name: string, version: string, binaryLocation: Option<string>, arguments: Option<seq<string>>, browserId: int)

  /** The command-line options the plan depends on. */
  datatype Options = Options(
    runMode: RunMode, maxUrlsUntilRestart: int, genPageRunner: bool, genMultiplier: int,
    ignoreCerts: bool, debugInput: bool, timeoutTask: int)

  /** The inputs from outside the planner. */
  datatype Env = Env(
    timeout: int, logPath: string, randToken: string,
    getTests: (string, int) -> seq<string>, repeatJson: map<string, seq<string>>)

  /** One tuple handed to `worker_function`. */
  datatype WorkerArgs = WorkerArgs(
    logPath: string, browserName: string, browserVersion: string, binaryLocation: Option<string>,
    arguments: Option<seq<string>>, debugInput: bool, urls: seq<string>, timeoutTask: int, pageTimeout: int)

  /** A page-runner page as `create_test_page_runner` is asked for it: browser, runner id and URLs. */
  datatype PageRunner = PageRunner(browserId: int, runnerId: string, urls: seq<string>)

  /** The planner's state: `all_args`, `url_list` and `chunk_id`. */
  datatype Plan = Plan(allArgs: seq<WorkerArgs>, urlList: seq<PageRunner>, chunkId: int)

  const Schemes: seq<string> := ["http", "https"]
  const IgnoreCertsFlag: string := "--ignore-certificate-errors"
  const NoneListError: string := "TypeError: unsupported operand type(s) for +: 'NoneType' and 'list'"

  // ---------------------------------------------------------------------------
  // One (scheme, browser) pair (lines 449-476)
  // ---------------------------------------------------------------------------

  /** `arguments + ["--ignore-certificate-errors"]` under `--ignore_certs`; a browser without arguments (None) raises. */
  function WithCerts(arguments: Option<seq<string>>, ignoreCerts: bool): (r: Result<Option<seq<string>>>)
    ensures !ignoreCerts ==> r == Ok(arguments)
    ensures ignoreCerts ==> (r.Ok? <==> arguments.Some?)
    ensures ignoreCerts && r.Ok? ==> r.value == Some(arguments.value + [IgnoreCertsFlag])
  {
    if !ignoreCerts then Ok(arguments)
    else if arguments.None? then Err(NoneListError)
    else Ok(Some(arguments.value + [IgnoreCertsFlag]))
  }

  /** `filter(lambda s: s.startswith(prefix), urls)` */
  function WithPrefix(urls: seq<string>, prefix: string): (r: seq<string>)
    ensures forall u :: u in r <==> u in urls && StartsWith(u, prefix)
    decreases |urls|
  {
    if |urls| == 0 then []
    else WithPrefix(urls[..|urls| - 1], prefix) + (if StartsWith(urls[|urls| - 1], prefix) then [urls[|urls| - 1]] else [])
  }

  /** `json.load(f).get(str(browser_id), [])` */
  function RepeatEntry(repeatJson: map<string, seq<string>>, browserId: int): seq<string> {
    if IntToString(browserId) in repeatJson then repeatJson[IntToString(browserId)] else []
  }

  /** The test URLs of a pair: every URL `get_tests` gives, or the repeat entry's URLs with the scheme's prefix. */
  function PairUrls(env: Env, mode: RunMode, scheme: string, browserId: int): seq<string> {
    match mode
    case RunAll => env.getTests(scheme, browserId)
    case Repeat => WithPrefix(RepeatEntry(env.repeatJson, browserId), scheme + "://")
  }

  /** `page_timeout`: TIMEOUT for a full run, three times TIMEOUT for repeats. */
  function PageTimeout(env: Env, mode: RunMode): (t: int)
    ensures mode.Repeat? ==> t == 3 * env.timeout
    ensures mode.RunAll? ==> t == env.timeout
  {
    if mode.Repeat? then 3 * env.timeout else env.timeout
  }

  /** The page-runner id `f"{rand_token}-{chunk_id}"`. */
  function RunnerId(token: string, chunkId: int): string {
    token + "-" + IntToString(chunkId)
  }

  /** The argument tuple for one chunk. */
  function ChunkArgs(env: Env, o: Options, cfg: BrowserConfig, arguments: Option<seq<string>>, pageTimeout: int, chunk: seq<string>): WorkerArgs {
    WorkerArgs(env.logPath, cfg.name, cfg.version, cfg.binaryLocation, arguments, o.debugInput, chunk, o.timeoutTask, pageTimeout)
  }

  /** The page-runner page for the chunk with id `chunkId`: the chunk repeated `gen_multiplier` times. */
  function ChunkRunner(env: Env, o: Options, cfg: BrowserConfig, chunkId: int, chunk: seq<string>): PageRunner {
    PageRunner(cfg.browserId, RunnerId(env.randToken, chunkId), Repeated(chunk, o.genMultiplier))
  }

  /** One pass of the chunk loop: the chunk's tuple, and with gen_page_runner its page under the next chunk id. */
  function AddChunk(env: Env, o: Options, p: Plan, cfg: BrowserConfig, arguments: Option<seq<string>>, pageTimeout: int,
                    chunk: seq<string>): Plan {
    Plan(
      p.allArgs + [ChunkArgs(env, o, cfg, arguments, pageTimeout, chunk)],
      if o.genPageRunner then p.urlList + [ChunkRunner(env, o, cfg, p.chunkId, chunk)] else p.urlList,
      if o.genPageRunner then p.chunkId + 1 else p.chunkId)
  }

  /** The plan after the chunk loop (lines 470-476). */
  function AddChunks(env: Env, o: Options, p: Plan, cfg: BrowserConfig, arguments: Option<seq<string>>, pageTimeout: int,
                     chunks: seq<seq<string>>): Plan
    decreases |chunks|
  {
    if |chunks| == 0 then p
    else AddChunk(env, o, AddChunks(env, o, p, cfg, arguments, pageTimeout, chunks[..|chunks| - 1]), cfg, arguments, pageTimeout, chunks[|chunks| - 1])
  }

  /** The chunk loop appends one tuple per chunk, in chunk order, and keeps the earlier tuples. */
  lemma {:induction false} AddChunksArgs(env: Env, o: Options, p: Plan, cfg: BrowserConfig, arguments: Option<seq<string>>, pageTimeout: int,
                                         chunks: seq<seq<string>>)
    ensures var q := AddChunks(env, o, p, cfg, arguments, pageTimeout, chunks);
      |q.allArgs| == |p.allArgs| + |chunks| && q.allArgs[..|p.allArgs|] == p.allArgs
      && forall k :: 0 <= k < |chunks| ==> q.allArgs[|p.allArgs| + k] == ChunkArgs(env, o, cfg, arguments, pageTimeout, chunks[k])
    decreases |chunks|
  {
    if |chunks| > 0 {
      var init := chunks[..|chunks| - 1];
      AddChunksArgs(env, o, p, cfg, arguments, pageTimeout, init);
      var q0 := AddChunks(env, o, p, cfg, arguments, pageTimeout, init);
      var q := AddChunks(env, o, p, cfg, arguments, pageTimeout, chunks);
      assert q.allArgs == q0.allArgs + [ChunkArgs(env, o, cfg, arguments, pageTimeout, chunks[|chunks| - 1])];
      assert q.allArgs[..|q0.allArgs|] == q0.allArgs;
    }
  }

  /** Whether a pair is skipped: in repeat mode, when it has no URLs at all. */
  predicate Skipped(env: Env, o: Options, scheme: string, cfg: BrowserConfig) {
    o.runMode.Repeat? && |PairUrls(env, o.runMode, scheme, cfg.browserId)| == 0
  }

  /** The body of the inner planning loop for one (scheme, browser) pair. */
  function PairStep(env: Env, o: Options, p: Plan, scheme: string, cfg: BrowserConfig): Result<Plan> {
    match WithCerts(cfg.arguments, o.ignoreCerts)
    case Err(e) => Err(e)
    case Ok(arguments) =>
      if Skipped(env, o, scheme, cfg) then Ok(p)
      else
        match SliceChunks(PairUrls(env, o.runMode, scheme, cfg.browserId), o.maxUrlsUntilRestart)
        case Err(e) => Err(e)
        case Ok(chunks) => Ok(AddChunks(env, o, p, cfg, arguments, PageTimeout(env, o.runMode), chunks))
  }

  /** The pairs of one scheme, in browser order. */
  function SchemePairs(scheme: string, config: seq<BrowserConfig>): (r: seq<(string, BrowserConfig)>)
    ensures |r| == |config| && forall k :: 0 <= k < |config| ==> r[k] == (scheme, config[k])
  {
    seq(|config|, k requires 0 <= k < |config| => (scheme, config[k]))
  }

  /** The pairs in loop order: schemes outer, browsers inner. */
  function Pairs(schemes: seq<string>, config: seq<BrowserConfig>): (r: seq<(string, BrowserConfig)>)
    ensures |r| == |schemes| * |config|
    decreases |schemes|
  {
    if |schemes| == 0 then [] else SchemePairs(schemes[0], config) + Pairs(schemes[1..], config)
  }

  /** The planning loops over a list of pairs, front to back; the first exception ends the run. */
  function Fold(env: Env, o: Options, start: Result<Plan>, pairs: seq<(string, BrowserConfig)>): Result<Plan>
    decreases |pairs|
  {
    if |pairs| == 0 || start.Err? then start
    else Fold(env, o, PairStep(env, o, start.value, pairs[0].0, pairs[0].1), pairs[1..])
  }

  lemma {:induction false} FoldAppend(env: Env, o: Options, start: Result<Plan>, a: seq<(string, BrowserConfig)>, b: seq<(string, BrowserConfig)>)
    ensures Fold(env, o, start, a + b) == Fold(env, o, Fold(env, o, start, a), b)
    decreases |a|
  {
    if |a| == 0 {
      assert a + b == b;
    } else if start.Ok? {
      assert (a + b)[0] == a[0] && (a + b)[1..] == a[1..] + b;
      FoldAppend(env, o, PairStep(env, o, start.value, a[0].0, a[0].1), a[1..], b);
    } else {
      FoldErr(env, o, start.error, b);
    }
  }

  lemma {:induction false} FoldErr(env: Env, o: Options, e: string, pairs: seq<(string, BrowserConfig)>)
    ensures Fold(env, o, Err(e), pairs) == Err(e)
  {
  }

  /** The plan of a normal run: all pairs from an empty plan. */
  function PlanOf(env: Env, o: Options, config: seq<BrowserConfig>): Result<Plan> {
    Fold(env, o, Ok(Plan([], [], 0)), Pairs(Schemes, config))
  }

  // ---------------------------------------------------------------------------
  // The loops
  // ---------------------------------------------------------------------------

  /** `for url_chunk in url_chunks:` (lines 470-476) */
  method AppendChunks(env: Env, o: Options, p0: Plan, cfg: BrowserConfig, arguments: Option<seq<string>>, pageTimeout: int,
                      chunks: seq<seq<string>>)
    returns (p: Plan)
    ensures p == AddChunks(env, o, p0, cfg, arguments, pageTimeout, chunks)
  {
    var allArgs := p0.allArgs;
    var urlList := p0.urlList;
    var chunkId := p0.chunkId;
    for k := 0 to |chunks|
      invariant Plan(allArgs, urlList, chunkId) == AddChunks(env, o, p0, cfg, arguments, pageTimeout, chunks[..k])
    {
      assert chunks[..k + 1][..k] == chunks[..k];
      allArgs := allArgs + [WorkerArgs(env.logPath, cfg.name, cfg.version, cfg.binaryLocation, arguments, o.debugInput, chunks[k], o.timeoutTask, pageTimeout)];
      if o.genPageRunner {
        var urlChunk := Repeated(chunks[k], o.genMultiplier);
        urlList := urlList + [PageRunner(cfg.browserId, env.randToken + "-" + IntToString(chunkId), urlChunk)];
        chunkId := chunkId + 1;
      }
    }
    assert chunks[..|chunks|] == chunks;
    p := Plan(allArgs, urlList, chunkId);
  }

  /** The body of the browser loop for one pair (lines 451-476). */
  method PlanPair(env: Env, o: Options, p0: Plan, scheme: string, cfg: BrowserConfig) returns (r: Result<Plan>)
    ensures r == PairStep(env, o, p0, scheme, cfg)
  {
    var arguments := cfg.arguments;
    if o.ignoreCerts {
      if arguments.None? {
        return Err(NoneListError);
      }
      arguments := Some(arguments.value + [IgnoreCertsFlag]);
    }
    var testUrls: seq<string>;
    var pageTimeout: int;
    match o.runMode {
      case RunAll =>
        testUrls := env.getTests(scheme, cfg.browserId);
        pageTimeout := env.timeout;
      case Repeat =>
        testUrls := RepeatEntry(env.repeatJson, cfg.browserId);
        testUrls := WithPrefix(testUrls, scheme + "://");
        pageTimeout := 3 * env.timeout;
        if |testUrls| == 0 {
          return Ok(p0);
        }
    }
    if o.maxUrlsUntilRestart == 0 {
      return Err("ValueError: range() arg 3 must not be zero");
    }
    var urlChunks := if o.maxUrlsUntilRestart < 0 then [] else Chunks(testUrls, o.maxUrlsUntilRestart);
    var p := AppendChunks(env, o, p0, cfg, arguments, pageTimeout, urlChunks);
    return Ok(p);
  }

  /** `for browser ... in config:` for one scheme. */
  method PlanScheme(env: Env, o: Options, p0: Plan, scheme: string, config: seq<BrowserConfig>) returns (r: Result<Plan>)
    ensures r == Fold(env, o, Ok(p0), SchemePairs(scheme, config))
  {
    var p := p0;
    for j := 0 to |config|
      invariant Fold(env, o, Ok(p0), SchemePairs(scheme, config)) == Fold(env, o, Ok(p), SchemePairs(scheme, config[j..]))
    {
      ghost var rest := SchemePairs(scheme, config[j..]);
      assert rest[0] == (scheme, config[j]);
      assert rest[1..] == SchemePairs(scheme, config[j + 1..]);
      var step := PlanPair(env, o, p, scheme, config[j]);
      if step.Err? {
        return step;
      }
      p := step.value;
    }
    return Ok(p);
  }

  /** `for scheme in ["http", "https"]:` (lines 449-476): the plan of a normal run. */
  method PlanRuns(env: Env, o: Options, config: seq<BrowserConfig>) returns (r: Result<Plan>)
    ensures r == PlanOf(env, o, config)
  {
    var p := Plan([], [], 0);
    for i := 0 to |Schemes|
      invariant PlanOf(env, o, config) == Fold(env, o, Ok(p), Pairs(Schemes[i..], config))
    {
      assert Schemes[i..][0] == Schemes[i] && Schemes[i..][1..] == Schemes[i + 1..];
      FoldAppend(env, o, Ok(p), SchemePairs(Schemes[i], config), Pairs(Schemes[i + 1..], config));
      var step := PlanScheme(env, o, p, Schemes[i], config);
      if step.Err? {
        return step;
      }
      p := step.value;
    }
    return Ok(p);
  }

  // ---------------------------------------------------------------------------
  // What the plan guarantees
  // ---------------------------------------------------------------------------

  /** The URLs of a list of argument tuples, chunk by chunk. */
  function ArgUrls(args: seq<WorkerArgs>): (r: seq<seq<string>>)
    ensures |r| == |args| && forall k :: 0 <= k < |args| ==> r[k] == args[k].urls
  {
    seq(|args|, k requires 0 <= k < |args| => args[k].urls)
  }

  /**
   * A pair that is not skipped appends one tuple per chunk and nothing else: their URLs
   * concatenate to the pair's test URLs, each holds at most max_urls_until_restart of
   * them, and all but the last hold exactly that many.
   */
  lemma PairStepChunks(env: Env, o: Options, p: Plan, scheme: string, cfg: BrowserConfig)
    requires o.maxUrlsUntilRestart > 0 && PairStep(env, o, p, scheme, cfg).Ok? && !Skipped(env, o, scheme, cfg)
    ensures var q := PairStep(env, o, p, scheme, cfg).value;
      |q.allArgs| >= |p.allArgs| && q.allArgs[..|p.allArgs|] == p.allArgs
      && Flatten(ArgUrls(q.allArgs[|p.allArgs|..])) == PairUrls(env, o.runMode, scheme, cfg.browserId)
  {
    var urls := PairUrls(env, o.runMode, scheme, cfg.browserId);
    var chunks := Chunks(urls, o.maxUrlsUntilRestart);
    var arguments := WithCerts(cfg.arguments, o.ignoreCerts).value;
    AddChunksArgs(env, o, p, cfg, arguments, PageTimeout(env, o.runMode), chunks);
    var q := PairStep(env, o, p, scheme, cfg).value;
    assert ArgUrls(q.allArgs[|p.allArgs|..]) == chunks;
    ChunksFlatten(urls, o.maxUrlsUntilRestart);
  }

  /** Each appended tuple holds at most max_urls_until_restart URLs, all but the last exactly that many, and the pair's page timeout. */
  lemma PairStepChunkSizes(env: Env, o: Options, p: Plan, scheme: string, cfg: BrowserConfig)
    requires o.maxUrlsUntilRestart > 0 && PairStep(env, o, p, scheme, cfg).Ok? && !Skipped(env, o, scheme, cfg)
    ensures |PairStep(env, o, p, scheme, cfg).value.allArgs| >= |p.allArgs|
    ensures var added := PairStep(env, o, p, scheme, cfg).value.allArgs[|p.allArgs|..];
      (forall k :: 0 <= k < |added| ==> 0 < |added[k].urls| <= o.maxUrlsUntilRestart && added[k].pageTimeout == PageTimeout(env, o.runMode))
      && (forall k :: 0 <= k < |added| - 1 ==> |added[k].urls| == o.maxUrlsUntilRestart)
  {
    var urls := PairUrls(env, o.runMode, scheme, cfg.browserId);
    var chunks := Chunks(urls, o.maxUrlsUntilRestart);
    var arguments := WithCerts(cfg.arguments, o.ignoreCerts).value;
    AddChunksArgs(env, o, p, cfg, arguments, PageTimeout(env, o.runMode), chunks);
    var q := PairStep(env, o, p, scheme, cfg).value;
    assert q == AddChunks(env, o, p, cfg, arguments, PageTimeout(env, o.runMode), chunks);
    ChunksFull(urls, o.maxUrlsUntilRestart);
    var added := q.allArgs[|p.allArgs|..];
    forall k | 0 <= k < |added| ensures added[k] == ChunkArgs(env, o, cfg, arguments, PageTimeout(env, o.runMode), chunks[k]) {
      assert added[k] == q.allArgs[|p.allArgs| + k];
    }
  }

  /** In repeat mode a pair without URLs of its scheme adds nothing. */
  lemma RepeatSkipsEmpty(env: Env, o: Options, p: Plan, scheme: string, cfg: BrowserConfig)
    requires o.runMode.Repeat? && WithCerts(cfg.arguments, o.ignoreCerts).Ok?
    requires forall u :: u in RepeatEntry(env.repeatJson, cfg.browserId) ==> !StartsWith(u, scheme + "://")
    ensures PairStep(env, o, p, scheme, cfg) == Ok(p)
  {
    FirstIn(PairUrls(env, o.runMode, scheme, cfg.browserId));
  }

  lemma FirstIn<T>(s: seq<T>)
    ensures |s| == 0 || s[0] in s
  {
  }

  /** Every URL of a repeat plan starts with one of the two scheme prefixes, and every tuple waits 3·TIMEOUT. */
  predicate RepeatShaped(env: Env, p: Plan) {
    forall a :: a in p.allArgs ==>
      (a.pageTimeout == 3 * env.timeout && forall u :: u in a.urls ==> StartsWith(u, "http://") || StartsWith(u, "https://"))
  }

  lemma {:induction false} RepeatPlanShaped(env: Env, o: Options, p: Plan, pairs: seq<(string, BrowserConfig)>)
    requires o.runMode.Repeat? && RepeatShaped(env, p) && forall k :: 0 <= k < |pairs| ==> pairs[k].0 in Schemes
    requires Fold(env, o, Ok(p), pairs).Ok?
    ensures RepeatShaped(env, Fold(env, o, Ok(p), pairs).value)
    decreases |pairs|
  {
    if |pairs| > 0 {
      var step := PairStep(env, o, p, pairs[0].0, pairs[0].1);
      if step.Ok? {
        PairStepRepeatShaped(env, o, p, pairs[0].0, pairs[0].1);
        RepeatPlanShaped(env, o, step.value, pairs[1..]);
      }
    }
  }

  lemma PairStepRepeatShaped(env: Env, o: Options, p: Plan, scheme: string, cfg: BrowserConfig)
    requires o.runMode.Repeat? && scheme in Schemes && RepeatShaped(env, p) && PairStep(env, o, p, scheme, cfg).Ok?
    ensures RepeatShaped(env, PairStep(env, o, p, scheme, cfg).value)
  {
    if !Skipped(env, o, scheme, cfg) && o.maxUrlsUntilRestart > 0 {
      var urls := PairUrls(env, o.runMode, scheme, cfg.browserId);
      var chunks := Chunks(urls, o.maxUrlsUntilRestart);
      ChunksFlatten(urls, o.maxUrlsUntilRestart);
      forall k, u | 0 <= k < |chunks| && u in chunks[k] ensures StartsWith(u, scheme + "://") {
        FlattenContains(chunks, k, u);
      }
      var arguments := WithCerts(cfg.arguments, o.ignoreCerts).value;
      AddChunksShaped(env, o, p, cfg, arguments, scheme, chunks);
    }
  }

  lemma {:induction false} AddChunksShaped(env: Env, o: Options, p: Plan, cfg: BrowserConfig, arguments: Option<seq<string>>,
                                           scheme: string, chunks: seq<seq<string>>)
    requires o.runMode.Repeat? && scheme in Schemes && RepeatShaped(env, p)
    requires forall k, u :: 0 <= k < |chunks| && u in chunks[k] ==> StartsWith(u, scheme + "://")
    ensures RepeatShaped(env, AddChunks(env, o, p, cfg, arguments, PageTimeout(env, o.runMode), chunks))
    decreases |chunks|
  {
    if |chunks| > 0 {
      var init := chunks[..|chunks| - 1];
      var last := chunks[|chunks| - 1];
      assert forall k :: 0 <= k < |init| ==> init[k] == chunks[k];
      AddChunksShaped(env, o, p, cfg, arguments, scheme, init);
      var q0 := AddChunks(env, o, p, cfg, arguments, PageTimeout(env, o.runMode), init);
      var a := ChunkArgs(env, o, cfg, arguments, PageTimeout(env, o.runMode), last);
      SchemePrefix(scheme);
      assert forall u :: u in a.urls ==> StartsWith(u, "http://") || StartsWith(u, "https://");
      assert AddChunks(env, o, p, cfg, arguments, PageTimeout(env, o.runMode), chunks).allArgs == q0.allArgs + [a];
    }
  }

  lemma SchemePrefix(scheme: string)
    requires scheme in Schemes
    ensures scheme + "://" == "http://" || scheme + "://" == "https://"
  {
  }

  /**
   * With gen_page_runner, the plan holds one page-runner page per tuple: page k has id
   * `{rand_token}-{k}` and the URLs of tuple k repeated gen_multiplier times. Without it,
   * no page is planned and chunk_id stays 0.
   */
  predicate RunnersMatch(env: Env, o: Options, p: Plan) {
    if o.genPageRunner then
      |p.urlList| == |p.allArgs| == p.chunkId
      && forall k :: 0 <= k < |p.urlList| ==>
           p.urlList[k].runnerId == RunnerId(env.randToken, k)
           && p.urlList[k].urls == Repeated(p.allArgs[k].urls, o.genMultiplier)
    else p.urlList == [] && p.chunkId == 0
  }

  lemma {:induction false} PlanRunnersMatch(env: Env, o: Options, p: Plan, pairs: seq<(string, BrowserConfig)>)
    requires RunnersMatch(env, o, p) && Fold(env, o, Ok(p), pairs).Ok?
    ensures RunnersMatch(env, o, Fold(env, o, Ok(p), pairs).value)
    decreases |pairs|
  {
    if |pairs| > 0 {
      var step := PairStep(env, o, p, pairs[0].0, pairs[0].1);
      if step.Ok? {
        PairStepRunnersMatch(env, o, p, pairs[0].0, pairs[0].1);
        PlanRunnersMatch(env, o, step.value, pairs[1..]);
      }
    }
  }

  lemma PairStepRunnersMatch(env: Env, o: Options, p: Plan, scheme: string, cfg: BrowserConfig)
    requires RunnersMatch(env, o, p) && PairStep(env, o, p, scheme, cfg).Ok?
    ensures RunnersMatch(env, o, PairStep(env, o, p, scheme, cfg).value)
  {
    if !Skipped(env, o, scheme, cfg) && o.maxUrlsUntilRestart > 0 {
      var arguments := WithCerts(cfg.arguments, o.ignoreCerts).value;
      var chunks := Chunks(PairUrls(env, o.runMode, scheme, cfg.browserId), o.maxUrlsUntilRestart);
      AddChunksRunners(env, o, p, cfg, arguments, PageTimeout(env, o.runMode), chunks);
    }
  }

  lemma {:induction false} AddChunksRunners(env: Env, o: Options, p: Plan, cfg: BrowserConfig, arguments: Option<seq<string>>,
                                            pageTimeout: int, chunks: seq<seq<string>>)
    requires RunnersMatch(env, o, p)
    ensures RunnersMatch(env, o, AddChunks(env, o, p, cfg, arguments, pageTimeout, chunks))
    decreases |chunks|
  {
    if |chunks| > 0 {
      var q0 := AddChunks(env, o, p, cfg, arguments, pageTimeout, chunks[..|chunks| - 1]);
      AddChunksRunners(env, o, p, cfg, arguments, pageTimeout, chunks[..|chunks| - 1]);
      AddChunkRunners(env, o, q0, cfg, arguments, pageTimeout, chunks[|chunks| - 1]);
    }
  }

  lemma AddChunkRunners(env: Env, o: Options, p: Plan, cfg: BrowserConfig, arguments: Option<seq<string>>,
                        pageTimeout: int, chunk: seq<string>)
    requires RunnersMatch(env, o, p)
    ensures RunnersMatch(env, o, AddChunk(env, o, p, cfg, arguments, pageTimeout, chunk))
  {
    var q := AddChunk(env, o, p, cfg, arguments, pageTimeout, chunk);
    if o.genPageRunner {
      forall k | 0 <= k < |q.urlList|
        ensures q.urlList[k].runnerId == RunnerId(env.randToken, k) && q.urlList[k].urls == Repeated(q.allArgs[k].urls, o.genMultiplier)
      {
        if k < |p.urlList| {
          assert q.urlList[k] == p.urlList[k] && q.allArgs[k] == p.allArgs[k];
        }
      }
    }
  }

  // ---------------------------------------------------------------------------
  // The page-runner JSON plan (lines 435-446)
  // ---------------------------------------------------------------------------

  /** The tuple for one page-runner URL: its own browser id appended, one URL, the task timeout less 60 s. */
  function RunnerArgs(env: Env, o: Options, cfg: BrowserConfig, arguments: Option<seq<string>>, url: string): WorkerArgs {
    WorkerArgs(env.logPath, cfg.name, cfg.version, cfg.binaryLocation, arguments, o.debugInput,
               [url + "?browser_id=" + IntToString(cfg.browserId)], o.timeoutTask, o.timeoutTask - 60)
  }

  /** `assert(int(re.findall("runner-(\d+)", url)[0]) == 1)`: no match raises IndexError. */
  function RunnerCheck(url: string): (r: Result<()>)
    ensures r.Ok? <==> Search(url, "runner-", false).Some? && DigitsValue(Search(url, "runner-", false).value) == 1
  {
    match Search(url, "runner-", false)
    case None => Err("IndexError: list index out of range")
    case Some(d) => if DigitsValue(d) == 1 then Ok(()) else Err("AssertionError")
  }

  /**
   * The plan read from a page-runner JSON list: exactly one browser may be configured,
   * and every URL must be a runner page with number 1; then one single-URL tuple per URL,
   * in list order.
   */
  method PlanFromRunnerJson(env: Env, o: Options, config: seq<BrowserConfig>, urls: seq<string>) returns (r: Result<seq<WorkerArgs>>)
    ensures r.Ok? <==> (|config| == 1 && WithCerts(config[0].arguments, o.ignoreCerts).Ok?
      && forall k :: 0 <= k < |urls| ==> RunnerCheck(urls[k]).Ok?)
    ensures r.Ok? ==> var arguments := WithCerts(config[0].arguments, o.ignoreCerts).value;
      |r.value| == |urls| && forall k :: 0 <= k < |urls| ==> r.value[k] == RunnerArgs(env, o, config[0], arguments, urls[k])
  {
    if |config| != 1 {
      return Err("AssertionError");
    }
    var cfg := config[0];
    var arguments := cfg.arguments;
    if o.ignoreCerts {
      if arguments.None? {
        return Err(NoneListError);
      }
      arguments := Some(arguments.value + [IgnoreCertsFlag]);
    }
    var allArgs: seq<WorkerArgs> := [];
    for k := 0 to |urls|
      invariant |allArgs| == k && forall i :: 0 <= i < k ==> RunnerCheck(urls[i]).Ok? && allArgs[i] == RunnerArgs(env, o, cfg, arguments, urls[i])
    {
      var check := RunnerCheck(urls[k]);
      if check.Err? {
        return Err(check.error);
      }
      var url := urls[k] + "?browser_id=" + IntToString(cfg.browserId);
      allArgs := allArgs + [WorkerArgs(env.logPath, cfg.name, cfg.version, cfg.binaryLocation, arguments, o.debugInput, [url], o.timeoutTask, o.timeoutTask - 60)];
    }
    return Ok(allArgs);
  }

  // ---------------------------------------------------------------------------
  // One URL in run_task (lines 186, 200-219)
  // ---------------------------------------------------------------------------

  /** The pages loaded for one URL: the HSTS-deactivation page first when the URL mentions "upgrade". */
  function PageLoads(url: string, hstsDeactivate: string): (loads: seq<string>)
    ensures |loads| > 0 && loads[|loads| - 1] == url
    ensures |loads| == 2 <==> Contains(url, "upgrade")
    ensures |loads| == 2 ==> loads[0] == hstsDeactivate
  {
    if Contains(url, "upgrade") then [hstsDeactivate, url] else [url]
  }

  /** `driver.set_page_load_timeout(2 * page_timeout)` */
  function PageLoadTimeout(pageTimeout: int): int {
    2 * pageTimeout
  }

  /** A full run allows 2 × TIMEOUT per page load, a repeat run 6 × TIMEOUT. */
  lemma PageLoadTimeoutByMode(env: Env, mode: RunMode)
    ensures mode.RunAll? ==> PageLoadTimeout(PageTimeout(env, mode)) == 2 * env.timeout
    ensures mode.Repeat? ==> PageLoadTimeout(PageTimeout(env, mode)) == 6 * env.timeout
  {
  }

  /**
   * `url_timeout`: the number after the first `timeout=` of the URL, or 0 for a
   * test-page-runner URL. A URL without one raises (the visit is logged as failed).
   */
  function UrlTimeout(url: string): (r: Result<int>)
    ensures Contains(url, "test-page-runner") ==> r == Ok(0)
    ensures !Contains(url, "test-page-runner") ==> (r.Ok? <==> Search(url, "timeout=", false).Some?)
    ensures r.Ok? ==> r.value >= 0
  {
    if Contains(url, "test-page-runner") then Ok(0)
    else match Search(url, "timeout=", false)
      case None => Err("TypeError: 'NoneType' object is not subscriptable")
      case Some(d) => Ok(DigitsValue(d))
  }

  /** `max(page_timeout, url_timeout + 2)` */
  function WaitTimeout(url: string, pageTimeout: int): (r: Result<int>)
    ensures r.Ok? <==> UrlTimeout(url).Ok?
    ensures r.Ok? ==> (r.value >= pageTimeout && r.value >= UrlTimeout(url).value + 2
      && (r.value == pageTimeout || r.value == UrlTimeout(url).value + 2))
  {
    match UrlTimeout(url)
    case Err(e) => Err(e)
    case Ok(t) => Ok(if pageTimeout >= t + 2 then pageTimeout else t + 2)
  }

  /**
   * A URL that carries `timeout=N` before its first other '=' (as every test URL with a
   * leading `?timeout=N&` does) is waited for at least N + 2 seconds.
   */
  lemma UrlTimeoutOf(pre: string, n: nat, rest: string)
    requires forall j :: 0 <= j < |pre| ==> pre[j] != '='
    requires |rest| == 0 || !IsDigit(rest[0])
    requires !Contains(pre + "timeout=" + NatToString(n) + rest, "test-page-runner")
    ensures UrlTimeout(pre + "timeout=" + NatToString(n) + rest) == Ok(n)
  {
    var lit := "timeout=";
    assert lit[|lit| - 1] == '=';
    SearchAfter(pre, lit, NatToString(n), rest, false);
    NatToStringValue(n);
  }
}
