/**
 * The run planner of the older desktop Selenium crawler (_hp/tools/crawler/desktop_selenium.py):
 * the `__main__` loops that turn the test URLs of every (scheme, browser) pair into
 * worker argument tuples, one per chunk of at most `max_urls_until_restart` URLs, each
 * carrying the task timeout; and the page loads and timeouts of one visit in `run_task`.
 *
 * The URLs of a full run are those `get_tests` of tools/crawler/utils.py (module
 * CrawlerUtils) builds from its list of test pages. That list, the log path (built
 * from the clock), the contents of ../repeat.json and the HSTS-deactivation URL are
 * explicit inputs.
 */
module DesktopSeleniumOld {
  import opened Common
  import opened Strings
  import opened Chunking
  import CrawlerUtils
  import DS = DesktopSelenium

  /** The command-line options the plan depends on. */
  datatype Options = Options(
    runMode: DS.RunMode, respType: string, maxUrlsUntilRestart: int, debugInput: bool, timeoutTask: int)

  /**
   * The inputs from outside the planner: the log path (built from the clock), the
   * contents of ../repeat.json, and the test pages `get_tests` walks (TESTS of
   * tools/crawler/utils.py, `CrawlerUtils.Tests`).
   */
  datatype Env = Env(logPath: string, repeatJson: map<string, seq<string>>, testFiles: seq<string>)

  /** One tuple handed to `worker_function`: the last field is the task timeout. */
  datatype TaskArgs = TaskArgs(
    logPath: string, browserName: string, browserVersion: string, binaryLocation: Option<string>,
    arguments: Option<seq<string>>, debugInput: bool, urls: seq<string>, timeout: int)

  /** The test URLs of a pair: `get_tests(resp_type, browser_id, scheme)`, or the repeat entry's URLs of the scheme. */
  function PairUrls(env: Env, o: Options, scheme: string, browserId: int): seq<string> {
    match o.runMode
    case RunAll => CrawlerUtils.AllUrls(env.testFiles, o.respType, browserId, scheme)
    case Repeat => DS.WithPrefix(DS.RepeatEntry(env.repeatJson, browserId), scheme + "://")
  }

  /** Whether a pair is skipped (`continue`): in repeat mode, when it has no URLs. */
  predicate Skipped(env: Env, o: Options, scheme: string, cfg: DS.BrowserConfig) {
    o.runMode.Repeat? && |PairUrls(env, o, scheme, cfg.browserId)| == 0
  }

  /** The tuple of one chunk. */
  function ChunkArgs(env: Env, o: Options, cfg: DS.BrowserConfig, chunk: seq<string>): TaskArgs {
    TaskArgs(env.logPath, cfg.name, cfg.version, cfg.binaryLocation, cfg.arguments, o.debugInput, chunk, o.timeoutTask)
  }

  /** The tuples of a list of chunks, one per chunk in chunk order. */
  function ChunkTuples(env: Env, o: Options, cfg: DS.BrowserConfig, chunks: seq<seq<string>>): (r: seq<TaskArgs>)
    ensures |r| == |chunks| && forall k :: 0 <= k < |chunks| ==> r[k] == ChunkArgs(env, o, cfg, chunks[k])
  {
    seq(|chunks|, k requires 0 <= k < |chunks| => ChunkArgs(env, o, cfg, chunks[k]))
  }

  /** The tuples one pair contributes (lines 230-244); a zero chunk size makes `range` raise. */
  function PairTuples(env: Env, o: Options, scheme: string, cfg: DS.BrowserConfig)
    : (r: Result<seq<TaskArgs>>)
    ensures r.Err? <==> (o.maxUrlsUntilRestart == 0 && !Skipped(env, o, scheme, cfg))
  {
    if Skipped(env, o, scheme, cfg) then Ok([])
    else
      match SliceChunks(PairUrls(env, o, scheme, cfg.browserId), o.maxUrlsUntilRestart)
      case Err(e) => Err(e)
      case Ok(chunks) => Ok(ChunkTuples(env, o, cfg, chunks))
  }

  /** The planning loops over a list of pairs, front to back, appending to `all_args`; the first exception ends the run. */
  function Fold(env: Env, o: Options, start: Result<seq<TaskArgs>>,
                pairs: seq<(string, DS.BrowserConfig)>): Result<seq<TaskArgs>>
    decreases |pairs|
  {
    if |pairs| == 0 || start.Err? then start
    else
      match PairTuples(env, o, pairs[0].0, pairs[0].1)
      case Err(e) => Err(e)
      case Ok(t) => Fold(env, o, Ok(start.value + t), pairs[1..])
  }

  /** `all_args` of a run: every pair of `["http", "https"]` × config, from an empty list. */
  function PlanOf(env: Env, o: Options, config: seq<DS.BrowserConfig>)
    : Result<seq<TaskArgs>>
  {
    Fold(env, o, Ok([]), DS.Pairs(DS.Schemes, config))
  }

  lemma {:induction false} FoldAppend(env: Env, o: Options, start: Result<seq<TaskArgs>>,
                                      a: seq<(string, DS.BrowserConfig)>, b: seq<(string, DS.BrowserConfig)>)
    ensures Fold(env, o, start, a + b) == Fold(env, o, Fold(env, o, start, a), b)
    decreases |a|
  {
    if |a| == 0 {
      assert a + b == b;
    } else if start.Ok? {
      assert (a + b)[0] == a[0] && (a + b)[1..] == a[1..] + b;
      match PairTuples(env, o, a[0].0, a[0].1) {
        case Err(e) => FoldErr(env, o, e, b);
        case Ok(t) => FoldAppend(env, o, Ok(start.value + t), a[1..], b);
      }
    } else {
      FoldErr(env, o, start.error, b);
    }
  }

  lemma FoldErr(env: Env, o: Options, e: string, pairs: seq<(string, DS.BrowserConfig)>)
    ensures Fold(env, o, Err(e), pairs) == Err(e)
  {
  }

  // ---------------------------------------------------------------------------
  // The loops
  // ---------------------------------------------------------------------------

  /** `for url_chunk in url_chunks: all_args.append(...)` (lines 243-244) */
  method AppendChunks(allArgs0: seq<TaskArgs>, env: Env, o: Options, cfg: DS.BrowserConfig, chunks: seq<seq<string>>)
    returns (allArgs: seq<TaskArgs>)
    ensures allArgs == allArgs0 + ChunkTuples(env, o, cfg, chunks)
  {
    allArgs := allArgs0;
    for k := 0 to |chunks|
      invariant allArgs == allArgs0 + ChunkTuples(env, o, cfg, chunks[..k])
    {
      assert ChunkTuples(env, o, cfg, chunks[..k + 1]) == ChunkTuples(env, o, cfg, chunks[..k]) + [ChunkArgs(env, o, cfg, chunks[k])];
      allArgs := allArgs + [TaskArgs(env.logPath, cfg.name, cfg.version, cfg.binaryLocation, cfg.arguments, o.debugInput, chunks[k], o.timeoutTask)];
    }
    assert chunks[..|chunks|] == chunks;
  }

  /** The body of the browser loop for one pair (lines 230-244). */
  method PlanPair(allArgs0: seq<TaskArgs>, env: Env, o: Options,
                  scheme: string, cfg: DS.BrowserConfig) returns (r: Result<seq<TaskArgs>>)
    ensures var t := PairTuples(env, o, scheme, cfg);
      (t.Err? ==> r == Err(t.error)) && (t.Ok? ==> r == Ok(allArgs0 + t.value))
  {
    var testUrls: seq<string>;
    match o.runMode {
      case RunAll =>
        testUrls := CrawlerUtils.CollectUrls(env.testFiles, o.respType, cfg.browserId, scheme);
      case Repeat =>
        testUrls := DS.RepeatEntry(env.repeatJson, cfg.browserId);
        testUrls := DS.WithPrefix(testUrls, scheme + "://");
        if |testUrls| == 0 {
          assert allArgs0 + [] == allArgs0;
          return Ok(allArgs0);
        }
    }
    assert testUrls == PairUrls(env, o, scheme, cfg.browserId) && !Skipped(env, o, scheme, cfg);
    var urlChunks := SliceChunks(testUrls, o.maxUrlsUntilRestart);
    if urlChunks.Err? {
      return Err(urlChunks.error);
    }
    var allArgs := AppendChunks(allArgs0, env, o, cfg, urlChunks.value);
    return Ok(allArgs);
  }

  /** `for ... in config:` for one scheme. */
  method PlanScheme(allArgs0: seq<TaskArgs>, env: Env, o: Options,
                    scheme: string, config: seq<DS.BrowserConfig>) returns (r: Result<seq<TaskArgs>>)
    ensures r == Fold(env, o, Ok(allArgs0), DS.SchemePairs(scheme, config))
  {
    var allArgs := allArgs0;
    for j := 0 to |config|
      invariant Fold(env, o, Ok(allArgs0), DS.SchemePairs(scheme, config))
        == Fold(env, o, Ok(allArgs), DS.SchemePairs(scheme, config[j..]))
    {
      ghost var rest := DS.SchemePairs(scheme, config[j..]);
      assert rest[0] == (scheme, config[j]);
      assert rest[1..] == DS.SchemePairs(scheme, config[j + 1..]);
      var step := PlanPair(allArgs, env, o, scheme, config[j]);
      if step.Err? {
        return step;
      }
      allArgs := step.value;
    }
    return Ok(allArgs);
  }

  /** `for scheme in ["http", "https"]:` (lines 227-244): `all_args` of a run, or the exception that ends it. */
  method PlanRuns(env: Env, o: Options, config: seq<DS.BrowserConfig>)
    returns (r: Result<seq<TaskArgs>>)
    ensures r == PlanOf(env, o, config)
  {
    var allArgs: seq<TaskArgs> := [];
    for i := 0 to |DS.Schemes|
      invariant PlanOf(env, o, config) == Fold(env, o, Ok(allArgs), DS.Pairs(DS.Schemes[i..], config))
    {
      assert DS.Schemes[i..][0] == DS.Schemes[i] && DS.Schemes[i..][1..] == DS.Schemes[i + 1..];
      FoldAppend(env, o, Ok(allArgs), DS.SchemePairs(DS.Schemes[i], config), DS.Pairs(DS.Schemes[i + 1..], config));
      var step := PlanScheme(allArgs, env, o, DS.Schemes[i], config);
      if step.Err? {
        return step;
      }
      allArgs := step.value;
    }
    return Ok(allArgs);
  }

  // ---------------------------------------------------------------------------
  // What the plan guarantees
  // ---------------------------------------------------------------------------

  /** The URLs of a list of tuples, tuple by tuple. */
  function ArgUrls(args: seq<TaskArgs>): (r: seq<seq<string>>)
    ensures |r| == |args| && forall k :: 0 <= k < |args| ==> r[k] == args[k].urls
  {
    seq(|args|, k requires 0 <= k < |args| => args[k].urls)
  }

  /** The test URLs of a list of pairs, in loop order. */
  function AllPairUrls(env: Env, o: Options, pairs: seq<(string, DS.BrowserConfig)>): seq<string>
    decreases |pairs|
  {
    if |pairs| == 0 then [] else PairUrls(env, o, pairs[0].0, pairs[0].1.browserId) + AllPairUrls(env, o, pairs[1..])
  }

  /**
   * With a positive chunk size, a pair's tuples partition its test URLs in order: their
   * URLs concatenate to the pair's URLs, each tuple holds between 1 and
   * max_urls_until_restart of them, all but the last exactly that many, and every tuple
   * carries timeout_task.
   */
  lemma PairTuplesChunks(env: Env, o: Options, scheme: string, cfg: DS.BrowserConfig)
    requires o.maxUrlsUntilRestart > 0
    ensures var r := PairTuples(env, o, scheme, cfg);
      r.Ok? && Flatten(ArgUrls(r.value)) == PairUrls(env, o, scheme, cfg.browserId)
      && (forall k :: 0 <= k < |r.value| ==> 0 < |r.value[k].urls| <= o.maxUrlsUntilRestart && r.value[k].timeout == o.timeoutTask)
      && (forall k :: 0 <= k < |r.value| - 1 ==> |r.value[k].urls| == o.maxUrlsUntilRestart)
  {
    var urls := PairUrls(env, o, scheme, cfg.browserId);
    if !Skipped(env, o, scheme, cfg) {
      var chunks := Chunks(urls, o.maxUrlsUntilRestart);
      var t := ChunkTuples(env, o, cfg, chunks);
      assert ArgUrls(t) == chunks;
      ChunksFlatten(urls, o.maxUrlsUntilRestart);
      ChunksFull(urls, o.maxUrlsUntilRestart);
    }
  }

  lemma ArgUrlsAppend(a: seq<TaskArgs>, b: seq<TaskArgs>)
    ensures ArgUrls(a + b) == ArgUrls(a) + ArgUrls(b)
  {
  }

  /** Whether some pair of the list reaches the chunking, i.e. is not skipped. */
  predicate SomeUnskipped(env: Env, o: Options, pairs: seq<(string, DS.BrowserConfig)>)
    decreases |pairs|
  {
    |pairs| > 0 && (!Skipped(env, o, pairs[0].0, pairs[0].1) || SomeUnskipped(env, o, pairs[1..]))
  }

  lemma {:induction false} SomeUnskippedIff(env: Env, o: Options, pairs: seq<(string, DS.BrowserConfig)>)
    ensures SomeUnskipped(env, o, pairs) <==> exists k :: 0 <= k < |pairs| && !Skipped(env, o, pairs[k].0, pairs[k].1)
    decreases |pairs|
  {
    if |pairs| > 0 {
      SomeUnskippedIff(env, o, pairs[1..]);
      if exists k :: 0 <= k < |pairs| && !Skipped(env, o, pairs[k].0, pairs[k].1) {
        var k :| 0 <= k < |pairs| && !Skipped(env, o, pairs[k].0, pairs[k].1);
        if k > 0 {
          assert pairs[1..][k - 1] == pairs[k];
        }
      }
      if SomeUnskipped(env, o, pairs[1..]) {
        var k :| 0 <= k < |pairs[1..]| && !Skipped(env, o, pairs[1..][k].0, pairs[1..][k].1);
        assert pairs[k + 1] == pairs[1..][k];
      }
    }
  }

  /**
   * A run fails exactly when max_urls_until_restart is 0 and some pair is not skipped
   * (`range` raises on a zero step, even for an empty list).
   */
  lemma FoldErrIff(env: Env, o: Options, a: seq<TaskArgs>, pairs: seq<(string, DS.BrowserConfig)>)
    ensures Fold(env, o, Ok(a), pairs).Err? <==>
      (o.maxUrlsUntilRestart == 0 && exists k :: 0 <= k < |pairs| && !Skipped(env, o, pairs[k].0, pairs[k].1))
  {
    FoldErrUnskipped(env, o, a, pairs);
    SomeUnskippedIff(env, o, pairs);
  }

  lemma {:induction false} FoldErrUnskipped(env: Env, o: Options, a: seq<TaskArgs>, pairs: seq<(string, DS.BrowserConfig)>)
    ensures Fold(env, o, Ok(a), pairs).Err? <==> (o.maxUrlsUntilRestart == 0 && SomeUnskipped(env, o, pairs))
    decreases |pairs|
  {
    if |pairs| > 0 {
      var t := PairTuples(env, o, pairs[0].0, pairs[0].1);
      if t.Ok? {
        FoldErrUnskipped(env, o, a + t.value, pairs[1..]);
      }
    }
  }

  /** The tuples a list of pairs contributes when no pair raises, in loop order. */
  function PlannedTuples(env: Env, o: Options, pairs: seq<(string, DS.BrowserConfig)>): seq<TaskArgs>
    requires o.maxUrlsUntilRestart > 0
    decreases |pairs|
  {
    if |pairs| == 0 then [] else PairTuples(env, o, pairs[0].0, pairs[0].1).value + PlannedTuples(env, o, pairs[1..])
  }

  /** With a positive chunk size a run succeeds and appends every pair's tuples, in loop order, to what was planned before. */
  lemma {:induction false} FoldPlanned(env: Env, o: Options, a: seq<TaskArgs>, pairs: seq<(string, DS.BrowserConfig)>)
    requires o.maxUrlsUntilRestart > 0
    ensures Fold(env, o, Ok(a), pairs) == Ok(a + PlannedTuples(env, o, pairs))
    decreases |pairs|
  {
    if |pairs| == 0 {
      assert a + [] == a;
    } else {
      var t := PairTuples(env, o, pairs[0].0, pairs[0].1).value;
      FoldPlanned(env, o, a + t, pairs[1..]);
      AppendAssoc(a, t, PlannedTuples(env, o, pairs[1..]));
    }
  }

  /** The URLs of the planned tuples concatenate to every pair's test URLs in loop order: no URL is lost, repeated or reordered. */
  lemma {:induction false} PlannedUrls(env: Env, o: Options, pairs: seq<(string, DS.BrowserConfig)>)
    requires o.maxUrlsUntilRestart > 0
    ensures Flatten(ArgUrls(PlannedTuples(env, o, pairs))) == AllPairUrls(env, o, pairs)
    decreases |pairs|
  {
    if |pairs| > 0 {
      PairTuplesChunks(env, o, pairs[0].0, pairs[0].1);
      var t := PairTuples(env, o, pairs[0].0, pairs[0].1).value;
      var rest := PlannedTuples(env, o, pairs[1..]);
      PlannedUrls(env, o, pairs[1..]);
      ArgUrlsAppend(t, rest);
      FlattenAppend(ArgUrls(t), ArgUrls(rest));
    }
  }

  /** Every tuple of a run carries timeout_task. */
  lemma {:induction false} FoldTimeouts(env: Env, o: Options, a: seq<TaskArgs>,
                                        pairs: seq<(string, DS.BrowserConfig)>)
    requires forall t :: t in a ==> t.timeout == o.timeoutTask
    requires Fold(env, o, Ok(a), pairs).Ok?
    ensures forall t :: t in Fold(env, o, Ok(a), pairs).value ==> t.timeout == o.timeoutTask
    decreases |pairs|
  {
    if |pairs| > 0 {
      var t := PairTuples(env, o, pairs[0].0, pairs[0].1).value;
      assert forall x :: x in t ==> x.timeout == o.timeoutTask;
      FoldTimeouts(env, o, a + t, pairs[1..]);
    }
  }

  /** In repeat mode a pair none of whose URLs has the scheme's prefix contributes nothing. */
  lemma RepeatSkipsEmpty(env: Env, o: Options, scheme: string, cfg: DS.BrowserConfig)
    requires o.runMode.Repeat?
    requires forall u :: u in DS.RepeatEntry(env.repeatJson, cfg.browserId) ==> !StartsWith(u, scheme + "://")
    ensures PairTuples(env, o, scheme, cfg) == Ok([])
  {
    DS.FirstIn(PairUrls(env, o, scheme, cfg.browserId));
  }

  /** Every URL of a repeat plan starts with `http://` or `https://`. */
  lemma RepeatPlanSchemes(env: Env, o: Options, config: seq<DS.BrowserConfig>)
    requires o.runMode.Repeat? && o.maxUrlsUntilRestart > 0
    ensures var r := PlanOf(env, o, config);
      r.Ok? && forall t, u :: t in r.value && u in t.urls ==> StartsWith(u, "http://") || StartsWith(u, "https://")
  {
    var pairs := DS.Pairs(DS.Schemes, config);
    FoldPlanned(env, o, [], pairs);
    PlannedUrls(env, o, pairs);
    var plan := PlanOf(env, o, config).value;
    assert plan == PlannedTuples(env, o, pairs);
    PairsSchemes(DS.Schemes, config);
    forall t, u | t in plan && u in t.urls ensures StartsWith(u, "http://") || StartsWith(u, "https://") {
      var i :| 0 <= i < |plan| && plan[i] == t;
      FlattenContains(ArgUrls(plan), i, u);
      AllPairUrlsPrefixed(env, o, pairs, u);
    }
  }

  /** Every pair of the loops has scheme http or https. */
  lemma {:induction false} PairsSchemes(schemes: seq<string>, config: seq<DS.BrowserConfig>)
    requires forall s :: s in schemes ==> s in DS.Schemes
    ensures forall p :: p in DS.Pairs(schemes, config) ==> p.0 in DS.Schemes
    decreases |schemes|
  {
    if |schemes| > 0 {
      PairsSchemes(schemes[1..], config);
    }
  }

  /** A repeat URL of one of the pairs starts with its pair's scheme prefix. */
  lemma {:induction false} AllPairUrlsPrefixed(env: Env, o: Options, pairs: seq<(string, DS.BrowserConfig)>, u: string)
    requires o.runMode.Repeat? && (forall p :: p in pairs ==> p.0 in DS.Schemes) && u in AllPairUrls(env, o, pairs)
    ensures StartsWith(u, "http://") || StartsWith(u, "https://")
    decreases |pairs|
  {
    if u in PairUrls(env, o, pairs[0].0, pairs[0].1.browserId) {
      DS.SchemePrefix(pairs[0].0);
    } else {
      assert forall p :: p in pairs[1..] ==> p in pairs;
      AllPairUrlsPrefixed(env, o, pairs[1..], u);
    }
  }

  // ---------------------------------------------------------------------------
  // One URL in run_task (lines 74, 85-87, 97)
  // ---------------------------------------------------------------------------

  /** The pages a visit loads, its page-load timeout and its wait for the `finished` element. */
  datatype Visit = Visit(loads: seq<string>, pageLoadTimeout: int, waitTimeout: int)

  /**
   * One URL of `run_task`: the HSTS-deactivation page first when the URL mentions
   * "upgrade", a page-load timeout of 2·TIMEOUT, and a wait of TIMEOUT whatever the URL.
   */
  function VisitOf(url: string, hstsDeactivate: string): (v: Visit)
    ensures |v.loads| > 0 && v.loads[|v.loads| - 1] == url
    ensures |v.loads| == 2 <==> Contains(url, "upgrade")
    ensures |v.loads| == 2 ==> v.loads[0] == hstsDeactivate
    ensures v.pageLoadTimeout == 2 * CrawlerUtils.Timeout && v.waitTimeout == CrawlerUtils.Timeout
  {
    Visit(DS.PageLoads(url, hstsDeactivate), 2 * CrawlerUtils.Timeout, CrawlerUtils.Timeout)
  }
}
