/**
 * The newer repeat reconciler, `calc_repeat` of _hp/hp/tools/create_repeat.py.
 *
 * The rows of the database query are an input list and the caller's WHERE fragment is a
 * predicate on rows. Rows are grouped by a composite test id. Every (test id, browser)
 * pair with fewer than five finished results is scheduled again. The browser is any browser
 * that occurs in the data, with zero results counted as fewer than five. Each scheduled pair
 * gets one retry URL, built from the first row of its test. The URLs go into one set per
 * browser.
 */
module CreateRepeat {
  import opened Common
  import opened Strings
  import opened Patterns
  import opened RepeatCommon

  // ---------------------------------------------------------------------------
  // The query
  // ---------------------------------------------------------------------------

  /** The WHERE clause: a known browser, no debug response, a finished test, and the caller's selection. */
  predicate Selected(r: Row, selection: Row -> bool) {
    Queried(r) && r.testStatus == 0 && selection(r)
  }

  /** The rows the query returns, in the order the input lists them. */
  function Query(rows: seq<Row>, selection: Row -> bool): (df: seq<Row>)
    ensures forall r :: r in df <==> r in rows && Selected(r, selection)
    ensures forall r :: multiset(df)[r] == if Selected(r, selection) then multiset(rows)[r] else 0
    decreases |rows|
  {
    if |rows| == 0 then []
    else
      var init := rows[..|rows| - 1];
      var last := rows[|rows| - 1];
      assert rows == init + [last];
      assert multiset(rows) == multiset(init) + multiset{last};
      Query(init, selection) + (if Selected(last, selection) then [last] else [])
  }

  // ---------------------------------------------------------------------------
  // clean_url and create_test_id
  // ---------------------------------------------------------------------------

  /** `re.sub(r"&run_id=(\w+)", "", url)` */
  function DropRunId(url: string): string {
    Sub(url, RunIdPat, "")
  }

  /** `clean_url`: browser id 1; no popup group, no run id, no timeout. */
  function CleanUrl(url: string): string {
    DropTimeout(DropRunId(DropPopups(WithBrowserId(url, 1))))
  }

  /** A URL that holds none of the four parameters comes out of clean_url unchanged. */
  lemma CleanUrlPlain(url: string)
    requires !Contains(url, BrowserIdLit) && !Contains(url, "&first_popup=")
    requires !Contains(url, "&run_id=") && !Contains(url, TimeoutLit)
    ensures CleanUrl(url) == url
  {
    SubAbsent(url, BrowserIdPat, BrowserIdLit + IntToString(1));
    SubAbsent(url, PopupPat, "");
    SubAbsent(url, RunIdPat, "");
    SubAbsent(url, TimeoutPat, "");
  }

  /** The eight identity fields of a row, the response id in decimal. */
  function TestIdFields(r: Row): (fs: seq<string>)
    ensures |fs| == 8
  {
    [r.testName, r.relationInfo, r.orgScheme, r.orgHost, r.respScheme, r.respHost, IntToString(r.responseId), r.respType]
  }

  /** `create_test_id`: the fields joined with `_`. */
  function TestId(r: Row): string {
    Join("_", TestIdFields(r))
  }

  predicate NoUnderscore(s: string) {
    forall i :: 0 <= i < |s| ==> s[i] != '_'
  }

  /** The text fields of the id hold no `_` (the decimal response id never does). */
  predicate PlainFields(r: Row) {
    NoUnderscore(r.testName) && NoUnderscore(r.relationInfo) && NoUnderscore(r.orgScheme) && NoUnderscore(r.orgHost)
    && NoUnderscore(r.respScheme) && NoUnderscore(r.respHost) && NoUnderscore(r.respType)
  }

  lemma DecimalNoUnderscore(i: int)
    ensures NoUnderscore(IntToString(i))
  {
    if i < 0 {
      var d := NatToString(-i);
      assert IntToString(i) == "-" + d;
      assert forall k :: 0 <= k < |d| ==> IsDigit(d[k]);
    } else {
      var d := NatToString(i);
      assert forall k :: 0 <= k < |d| ==> IsDigit(d[k]);
    }
  }

  /** When the text fields hold no `_`, splitting the test id at `_` gives the fields back. */
  lemma TestIdSplits(r: Row)
    requires PlainFields(r)
    ensures Split(TestId(r), '_') == TestIdFields(r)
  {
    DecimalNoUnderscore(r.responseId);
    var fs := TestIdFields(r);
    forall k, i | 0 <= k < |fs| && 0 <= i < |fs[k]| ensures fs[k][i] != '_' {
      assert NoUnderscore(fs[k]);
    }
    assert "_" == ['_'];
    JoinSplit(fs, '_');
  }

  /** So on such rows two rows share a test id exactly when they agree on all eight fields. */
  lemma TestIdInjective(r1: Row, r2: Row)
    requires PlainFields(r1) && PlainFields(r2)
    ensures TestId(r1) == TestId(r2) <==> TestIdFields(r1) == TestIdFields(r2)
    ensures TestId(r1) == TestId(r2) ==> r1.responseId == r2.responseId
  {
    TestIdSplits(r1);
    TestIdSplits(r2);
    if TestId(r1) == TestId(r2) {
      assert TestIdFields(r1)[6] == TestIdFields(r2)[6];
      IntToStringInjective(r1.responseId, r2.responseId);
    }
  }

  // ---------------------------------------------------------------------------
  // The threshold selection
  // ---------------------------------------------------------------------------

  /** The pairs of one representative with the browsers whose count is below five, in browser order. */
  function PendingOf<K(==)>(df: seq<Row>, key: Row -> K, rep: Row, browsers: seq<int>): (ps: seq<(int, Row)>)
    ensures forall b, r :: (b, r) in ps <==> r == rep && b in browsers && Count(df, key, key(rep), b) < 5
    decreases |browsers|
  {
    if |browsers| == 0 then []
    else
      var b := browsers[|browsers| - 1];
      assert browsers == browsers[..|browsers| - 1] + [b];
      PendingOf(df, key, rep, browsers[..|browsers| - 1]) + (if Count(df, key, key(rep), b) < 5 then [(b, rep)] else [])
  }

  /** The pending pairs of every representative in turn. */
  function PendingAll<K(==)>(df: seq<Row>, key: Row -> K, reps: seq<Row>, browsers: seq<int>): (ps: seq<(int, Row)>)
    ensures forall b, r :: (b, r) in ps <==> r in reps && b in browsers && Count(df, key, key(r), b) < 5
    decreases |reps|
  {
    if |reps| == 0 then []
    else
      var rep := reps[|reps| - 1];
      assert reps == reps[..|reps| - 1] + [rep];
      PendingAll(df, key, reps[..|reps| - 1], browsers) + PendingOf(df, key, rep, browsers)
  }

  /** Pending pairs for an arbitrary grouping key. */
  function PendingBy<K(==)>(df: seq<Row>, key: Row -> K): seq<(int, Row)> {
    PendingAll(df, key, FirstRows(df, key), Distinct(BrowserIds(df)))
  }

  lemma PendingByIff<K>(df: seq<Row>, key: Row -> K, b: int, rep: Row)
    ensures (b, rep) in PendingBy(df, key) <==>
      (FirstOf(df, key, rep) && (exists k :: 0 <= k < |df| && df[k].browserId == b) && Count(df, key, key(rep), b) < 5)
  {
    FirstRowsSpec(df, key);
    DistinctSpec(BrowserIds(df));
    var ids := BrowserIds(df);
    if exists k :: 0 <= k < |df| && df[k].browserId == b {
      var k :| 0 <= k < |df| && df[k].browserId == b;
      assert ids[k] == b;
    }
    if b in ids {
      var k :| 0 <= k < |ids| && ids[k] == b;
      assert df[k].browserId == b;
    }
    if FirstOf(df, key, rep) {
      FirstOfIn(df, key, rep);
    }
  }

  /**
   * `test_counts.loc[test_counts < 5]` merged with the first row of each test: one
   * (browser, representative) pair per test id and browser of the data with fewer than five
   * results. The browsers are those of the whole query, so a browser without any
   * result for the test counts zero.
   */
  function Pending(df: seq<Row>): seq<(int, Row)> {
    PendingBy(df, TestId)
  }

  /**
   * A (browser, row) pair is pending exactly when the row is the first of its test id, the
   * browser occurs in the data and the test has fewer than five results in that browser.
   */
  lemma PendingIff(df: seq<Row>, b: int, rep: Row)
    ensures (b, rep) in Pending(df) <==>
      (FirstOf(df, TestId, rep) && (exists k :: 0 <= k < |df| && df[k].browserId == b) && Count(df, TestId, TestId(rep), b) < 5)
  {
    PendingByIff(df, TestId, b, rep);
  }

  /** Tests with five or more results in a browser produce no pair for it. */
  lemma CompleteNotPending(df: seq<Row>, b: int, rep: Row)
    requires Count(df, TestId, TestId(rep), b) >= 5
    ensures (b, rep) !in Pending(df)
  {
    PendingIff(df, b, rep);
  }

  // ---------------------------------------------------------------------------
  // The retry URL (lines 83-103)
  // ---------------------------------------------------------------------------

  const FirstIdLit: string := "first_id="
  const LastIdLit: string := "last_id="
  const FirstIdPat: Pattern := Then(Lit(FirstIdLit), Then(Digits, End))
  const LastIdPat: Pattern := Then(Lit(LastIdLit), Then(Digits, End))

  const IndexError: string := "IndexError: list index out of range"
  const UnboundError: string := "UnboundLocalError: local variable 'l_id' referenced before assignment"
  const NoneError: string := "TypeError: 'NoneType' object is not subscriptable"

  function NotPossible(fullUrl: string): string {
    "Exception: Not possible to set correct first/last popup: " + fullUrl + " "
  }

  /** The URL with the browser id substituted and, unless several ids are allowed, both ids set to the response id. */
  function Rewritten(rep: Row, b: int, mult: bool): string {
    var url := WithBrowserId(CleanUrl(rep.fullUrl), b);
    if mult then url
    else Sub(Sub(url, FirstIdPat, FirstIdLit + IntToString(rep.responseId)), LastIdPat, LastIdLit + IntToString(rep.responseId))
  }

  /** `timeout=` + twice the old timeout, inserted as the first query parameter. */
  function TimeoutParam(t: nat): string {
    "?timeout=" + NatToString(2 * t) + "&"
  }

  /** The popup fields of the full URL, appended as `&first_popup=F&last_popup=L&run_no_popup=W`. */
  function PopupFields(f: string, l: string, w: string): string {
    "&first_popup=" + f + "&last_popup=" + l + "&run_no_popup=" + w
  }

  /**
   * The retry URL of representative `rep` for browser `b`, or the exception the loop body
   * raises for it.
   */
  function RetryUrl(rep: Row, b: int, mult: bool): (r: Result<string>)
    ensures r.Err? <==>
      (Search(rep.fullUrl, TimeoutLit, false).None? ||
       (Search(rep.fullUrl, "first_popup=", false).Some? &&
        (mult ||
         Search(WithBrowserId(CleanUrl(rep.fullUrl), b), LastIdLit, false).None? ||
         Search(WithBrowserId(CleanUrl(rep.fullUrl), b), FirstIdLit, false).None? ||
         DigitsValue(Search(WithBrowserId(CleanUrl(rep.fullUrl), b), LastIdLit, false).value)
           != DigitsValue(Search(WithBrowserId(CleanUrl(rep.fullUrl), b), FirstIdLit, false).value) ||
         Search(rep.fullUrl, "last_popup=", false).None? ||
         Search(rep.fullUrl, "run_no_popup=", true).None?)))
    ensures r.Err? && Search(rep.fullUrl, TimeoutLit, false).None? ==> r.error == IndexError
  {
    var url := WithBrowserId(CleanUrl(rep.fullUrl), b);
    var fId := Search(url, FirstIdLit, false);
    var lId := Search(url, LastIdLit, false);
    match Search(rep.fullUrl, TimeoutLit, false)
    case None => Err(IndexError)
    case Some(t) =>
      var withTimeout := SubFirst(Rewritten(rep, b, mult), '?', TimeoutParam(DigitsValue(t)));
      match Search(rep.fullUrl, "first_popup=", false)
      case None => Ok(withTimeout)
      case Some(f) =>
        if mult then Err(UnboundError)
        else if lId.None? || fId.None? then Err(NoneError)
        else if DigitsValue(lId.value) - DigitsValue(fId.value) != 0 then Err(NotPossible(rep.fullUrl))
        else match Search(rep.fullUrl, "last_popup=", false)
          case None => Err(NoneError)
          case Some(l) =>
            match Search(rep.fullUrl, "run_no_popup=", true)
            case None => Err(NoneError)
            case Some(w) => Ok(withTimeout + PopupFields(f, l, w))
  }

  /**
   * The timeout goes in right after the first `?` of the rewritten URL, at twice the first
   * `timeout=` value of the full URL; the popup fields, if the full URL has them, go at the end.
   */
  lemma RetryUrlShape(rep: Row, b: int, mult: bool, i: nat)
    requires RetryUrl(rep, b, mult).Ok?
    requires var u := Rewritten(rep, b, mult); i < |u| && u[i] == '?' && forall j :: 0 <= j < i ==> u[j] != '?'
    ensures var u := Rewritten(rep, b, mult);
      var t := DigitsValue(Search(rep.fullUrl, TimeoutLit, false).value);
      var head := u[..i] + TimeoutParam(t) + u[i + 1..];
      var f := Search(rep.fullUrl, "first_popup=", false);
      RetryUrl(rep, b, mult).value ==
        if f.None? then head
        else head + PopupFields(f.value, Search(rep.fullUrl, "last_popup=", false).value, Search(rep.fullUrl, "run_no_popup=", true).value)
  {
    var u := Rewritten(rep, b, mult);
    var t := DigitsValue(Search(rep.fullUrl, TimeoutLit, false).value);
    SubFirstAt(u, '?', TimeoutParam(t), i);
  }

  /** A rewritten URL without `?` gets no timeout at all. */
  lemma RetryUrlNoQuery(rep: Row, b: int, mult: bool)
    requires RetryUrl(rep, b, mult).Ok? && Search(rep.fullUrl, "first_popup=", false).None?
    requires var u := Rewritten(rep, b, mult); forall j :: 0 <= j < |u| ==> u[j] != '?'
    ensures RetryUrl(rep, b, mult).value == Rewritten(rep, b, mult)
  {
    var t := DigitsValue(Search(rep.fullUrl, TimeoutLit, false).value);
    SubFirstAbsent(Rewritten(rep, b, mult), '?', TimeoutParam(t));
  }

  /**
   * The retry URL carries the browser it is scheduled for: where the cleaned URL holds
   * `browser_id=N` once, N becomes that browser's id, whatever the representative's was.
   */
  lemma RetryCarriesBrowser(rep: Row, b: int, p: string, n: nat, rest: string)
    requires CleanUrl(rep.fullUrl) == p + (BrowserIdLit + NatToString(n)) + rest
    requires forall i :: 0 <= i < |p| ==> !StartsWith((p + (BrowserIdLit + NatToString(n) + rest))[i..], BrowserIdLit)
    requires (|rest| == 0 || !IsDigit(rest[0])) && !Contains(rest, BrowserIdLit)
    ensures Rewritten(rep, b, true) == p + (BrowserIdLit + IntToString(b)) + rest
  {
    WithBrowserIdOnce(p, n, rest, b);
  }

  /** `first_id=N` (or `last_id=N`) held once is set to the response id and nothing else changes. */
  lemma SingleIdRewrite(p: string, lit: string, n: nat, rest: string, responseId: int)
    requires lit == FirstIdLit || lit == LastIdLit
    requires forall i :: 0 <= i < |p| ==> !StartsWith((p + (lit + NatToString(n) + rest))[i..], lit)
    requires (|rest| == 0 || !IsDigit(rest[0])) && !Contains(rest, lit)
    ensures Sub(p + (lit + NatToString(n)) + rest, Then(Lit(lit), Then(Digits, End)), lit + IntToString(responseId))
      == p + (lit + IntToString(responseId)) + rest
  {
    SubLitDigitsOnce(p, lit, NatToString(n), rest, lit + IntToString(responseId));
  }

  // ---------------------------------------------------------------------------
  // The to_repeat dictionary (lines 73-106)
  // ---------------------------------------------------------------------------

  /** The dictionary entry one pending pair contributes: the browser id as a string and its retry URL. */
  function EntryOf(mult: bool): ((int, Row)) -> Result<(string, string)> {
    (p: (int, Row)) =>
      match RetryUrl(p.1, p.0, mult)
      case Err(e) => Err(e)
      case Ok(u) => Ok((IntToString(p.0), u))
  }

  /** The outcome of `calc_repeat`: the dictionary of URL sets, or the first exception raised. */
  function ToRepeat(rows: seq<Row>, selection: Row -> bool, mult: bool): Result<map<string, set<string>>> {
    Collect(Pending(Query(rows, selection)), EntryOf(mult))
  }

  /** The computation fails exactly when some pending pair's retry URL does. */
  lemma ToRepeatErr(rows: seq<Row>, selection: Row -> bool, mult: bool)
    ensures var ps := Pending(Query(rows, selection));
      ToRepeat(rows, selection, mult).Err? <==> exists k :: 0 <= k < |ps| && RetryUrl(ps[k].1, ps[k].0, mult).Err?
  {
    var ps := Pending(Query(rows, selection));
    CollectErr(ps, EntryOf(mult));
    if exists k :: 0 <= k < |ps| && RetryUrl(ps[k].1, ps[k].0, mult).Err? {
      var k :| 0 <= k < |ps| && RetryUrl(ps[k].1, ps[k].0, mult).Err?;
      assert EntryOf(mult)(ps[k]).Err?;
    }
  }

  /**
   * On success the keys are exactly the browsers with a pending pair, and each browser's
   * set holds exactly the retry URLs of its pairs; equal URLs collapse into one.
   */
  lemma ToRepeatContents(rows: seq<Row>, selection: Row -> bool, mult: bool, ps: seq<(int, Row)>, key: string, url: string)
    requires ps == Pending(Query(rows, selection))
    requires ToRepeat(rows, selection, mult).Ok?
    ensures var m := ToRepeat(rows, selection, mult).value;
      (key in m <==> exists k :: 0 <= k < |ps| && IntToString(ps[k].0) == key)
      && (key in m && url in m[key] <==>
          exists k :: 0 <= k < |ps| && IntToString(ps[k].0) == key && RetryUrl(ps[k].1, ps[k].0, mult) == Ok(url))
  {
    EntriesContents(ps, mult, key, url);
  }

  /** `ToRepeatContents` for any sequence of pairs. */
  lemma EntriesContents(ps: seq<(int, Row)>, mult: bool, key: string, url: string)
    requires Collect(ps, EntryOf(mult)).Ok?
    ensures var m := Collect(ps, EntryOf(mult)).value;
      (key in m <==> exists k :: 0 <= k < |ps| && IntToString(ps[k].0) == key)
      && (key in m && url in m[key] <==>
          exists k :: 0 <= k < |ps| && IntToString(ps[k].0) == key && RetryUrl(ps[k].1, ps[k].0, mult) == Ok(url))
  {
    var f := EntryOf(mult);
    CollectContents(ps, f, key, url);
    CollectErr(ps, f);
    forall k | 0 <= k < |ps|
      ensures f(ps[k]).Ok? && (f(ps[k]).value.0 == key <==> IntToString(ps[k].0) == key)
      ensures f(ps[k]) == Ok((key, url)) <==> IntToString(ps[k].0) == key && RetryUrl(ps[k].1, ps[k].0, mult) == Ok(url)
    {
      EntryOfRetry(mult, ps[k], key, url);
    }
  }

  /** The entry of a pair is its browser id in decimal with its retry URL. */
  lemma EntryOfRetry(mult: bool, p: (int, Row), key: string, url: string)
    ensures EntryOf(mult)(p).Ok? <==> RetryUrl(p.1, p.0, mult).Ok?
    ensures EntryOf(mult)(p).Ok? ==> EntryOf(mult)(p).value.0 == IntToString(p.0)
    ensures EntryOf(mult)(p) == Ok((key, url)) <==> IntToString(p.0) == key && RetryUrl(p.1, p.0, mult) == Ok(url)
  {
  }

  /** `calc_repeat` with the query result given as rows. */
  method CalcRepeat(rows: seq<Row>, selection: Row -> bool, mult: bool) returns (r: Result<map<string, set<string>>>)
    ensures r == ToRepeat(rows, selection, mult)
  {
    var pending := Pending(Query(rows, selection));
    r := FillRepeat(pending, mult);
  }

  /**
   * The loop at lines 76-106 over the pending pairs: each step computes the pair's entry
   * (its browser id as a string and its retry URL, or the exception) and adds the URL to
   * that browser's set.
   */
  method FillRepeat(pending: seq<(int, Row)>, mult: bool) returns (r: Result<map<string, set<string>>>)
    ensures r == Collect(pending, EntryOf(mult))
  {
    var f := EntryOf(mult);
    var toRepeat := new RepeatDict();
    BuildSetEmpty();
    var i := 0;
    while i < |pending|
      invariant 0 <= i <= |pending|
      invariant MapResult(pending[..i], f).Ok?
      invariant toRepeat.toRepeat == BuildSet(EntrySet(MapResult(pending[..i], f).value))
    {
      var entry := f(pending[i]);
      if entry.Err? {
        CollectStepErr(pending, f, i);
        return Err(entry.error);
      }
      CollectStep(pending, f, i);
      var (browserId, url) := entry.value;
      toRepeat.AddUrl(browserId, url);
      i := i + 1;
    }
    assert pending[..i] == pending;
    return Ok(toRepeat.toRepeat);
  }
}
