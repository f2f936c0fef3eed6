/**
 * What the two repeat reconcilers (_hp/hp/tools/create_repeat.py and the older
 * _hp/tools/create_repeat.py) share: the joined Result/Response/Browser row they
 * read, the regular expressions of their `clean_url`, and the `to_repeat`
 * dictionary that maps a browser id (as a string) to a set of URLs.
 */
module RepeatCommon {
  import opened Common
  import opened Strings
  import opened Patterns

  /** One row of the joined query, as far as the reconcilers read it. */
  datatype Row = Row(
    fullUrl: string, testName: string, relationInfo: string, orgScheme: string, orgHost: string,
    respScheme: string, respHost: string, responseId: int, respType: string,
    browserId: int, browserName: string, testStatus: int)

  /** The part of the WHERE clause both queries share: known browsers and no debug responses. */
  predicate Queried(r: Row) {
    r.browserName != "Unknown" && r.respType != "debug"
  }

  // ---------------------------------------------------------------------------
  // The regular expressions of clean_url
  // ---------------------------------------------------------------------------

  const BrowserIdLit: string := "browser_id="
  const TimeoutLit: string := "timeout="

  /** `browser_id=(\d+)` */
  const BrowserIdPat: Pattern := Then(Lit(BrowserIdLit), Then(Digits, End))
  /** `&first_popup=(\d+)&last_popup=(\d+)&run_no_popup=(yes|no)` */
  const PopupPat: Pattern := 
    Then(Lit("&first_popup="), Then(Digits, Then(Lit("&last_popup="), Then(Digits, Then(Lit("&run_no_popup="), Then(Either("yes", "no"), End))))))
  /** `&run_id=(\w+)` */
  const RunIdPat: Pattern := Then(Lit("&run_id="), Then(Word, End))
  /** `timeout=(\d+)&` */
  const TimeoutPat: Pattern := Then(Lit(TimeoutLit), Then(Digits, Then(Lit("&"), End)))

  /** `re.sub("browser_id=(\d+)", f"browser_id={browser_id}", url)` */
  function WithBrowserId(url: string, browserId: int): string {
    Sub(url, BrowserIdPat, BrowserIdLit + IntToString(browserId))
  }

  /** `re.sub(r"&first_popup=...", "", url)` */
  function DropPopups(url: string): string {
    Sub(url, PopupPat, "")
  }

  /** `re.sub(r"timeout=(\d+)&", "", url)` */
  function DropTimeout(url: string): string {
    Sub(url, TimeoutPat, "")
  }

  /** Where the pattern matches, the substitution writes the replacement and goes on after the match. */
  lemma SubMatch(q: string, pat: Pattern, rep: string, k: nat)
    requires Consuming(pat) && |q| > 0 && MatchLen(q, pat) == Some(k)
    ensures Sub(q, pat, rep) == rep + Sub(q[k..], pat, rep)
  {
  }

  /**
   * A substitution whose pattern matches once, at `m`, and not before it, replaces that
   * match and leaves the rest of the text unchanged.
   */
  lemma SubOnce(p: string, m: string, rest: string, pat: Pattern, rep: string)
    requires Consuming(pat) && pat.head.Lit?
    requires forall i :: 0 <= i < |p| ==> !StartsWith((p + (m + rest))[i..], pat.head.text)
    requires |m| > 0 && MatchLen(m + rest, pat) == Some(|m|)
    requires !Contains(rest, pat.head.text)
    ensures Sub(p + m + rest, pat, rep) == p + rep + rest
  {
    SubSkipsPrefix(p, m + rest, pat, rep);
    SubAtMatch(m, rest, pat, rep);
    AppendAssoc(p, m, rest);
    AppendAssoc(p, rep, rest);
  }

  /** A match at the start followed by text without the leading literal: the replacement, then that text. */
  lemma SubAtMatch(m: string, rest: string, pat: Pattern, rep: string)
    requires Consuming(pat) && pat.head.Lit?
    requires |m| > 0 && MatchLen(m + rest, pat) == Some(|m|)
    requires !Contains(rest, pat.head.text)
    ensures Sub(m + rest, pat, rep) == rep + rest
  {
    SubMatch(m + rest, pat, rep, |m|);
    assert (m + rest)[|m|..] == rest;
    SubAbsent(rest, pat, rep);
  }

  /** A literal followed by a maximal run of digits matches `lit(\d+)` in full. */
  lemma LitDigitsMatch(lit: string, d: string, rest: string)
    requires |d| > 0 && AllDigits(d) && (|rest| == 0 || !IsDigit(rest[0]))
    ensures MatchLen(lit + d + rest, Then(Lit(lit), Then(Digits, End))) == Some(|lit| + |d|)
  {
    DigitsCons(d, rest, End, 0);
    LitCons(lit, d + rest, Then(Digits, End), |d|);
    assert lit + d + rest == lit + (d + rest);
  }

  /** A literal, a run of digits and a closing literal match `lit(\d+)close` in full. */
  lemma LitDigitsLitMatch(lit: string, d: string, close: string, rest: string)
    requires |d| > 0 && AllDigits(d) && |close| > 0 && !IsDigit(close[0])
    ensures MatchLen(lit + d + close + rest, Then(Lit(lit), Then(Digits, Then(Lit(close), End)))) == Some(|lit| + |d| + |close|)
  {
    DigitsLitMatch(d, close, rest);
    LitCons(lit, d + (close + rest), Then(Digits, Then(Lit(close), End)), |d| + |close|);
    Assoc4(lit, d, close, rest);
  }

  lemma DigitsLitMatch(d: string, close: string, rest: string)
    requires |d| > 0 && AllDigits(d) && |close| > 0 && !IsDigit(close[0])
    ensures MatchLen(d + (close + rest), Then(Digits, Then(Lit(close), End))) == Some(|d| + |close|)
  {
    LitCons(close, rest, End, 0);
    DigitsCons(d, close + rest, Then(Lit(close), End), |close|);
  }

  lemma Assoc4(a: string, b: string, c: string, e: string)
    ensures a + b + c + e == a + (b + (c + e))
  {
  }

  /** `lit(\d+)` occurring once, at a maximal run of digits, is replaced and nothing else changes. */
  lemma SubLitDigitsOnce(p: string, lit: string, d: string, rest: string, rep: string)
    requires |lit| > 0 && |d| > 0 && AllDigits(d) && (|rest| == 0 || !IsDigit(rest[0]))
    requires forall i :: 0 <= i < |p| ==> !StartsWith((p + (lit + d + rest))[i..], lit)
    requires !Contains(rest, lit)
    ensures Sub(p + (lit + d) + rest, Then(Lit(lit), Then(Digits, End)), rep) == p + rep + rest
  {
    LitDigitsMatch(lit, d, rest);
    SubOnce(p, lit + d, rest, Then(Lit(lit), Then(Digits, End)), rep);
  }

  /** `lit(\d+)close` occurring once, at a maximal run of digits, is replaced and nothing else changes. */
  lemma SubLitDigitsLitOnce(p: string, lit: string, d: string, close: string, rest: string, rep: string)
    requires |lit| > 0 && |d| > 0 && AllDigits(d) && |close| > 0 && !IsDigit(close[0])
    requires forall i :: 0 <= i < |p| ==> !StartsWith((p + (lit + d + close + rest))[i..], lit)
    requires !Contains(rest, lit)
    ensures Sub(p + (lit + d + close) + rest, Then(Lit(lit), Then(Digits, Then(Lit(close), End))), rep) == p + rep + rest
  {
    LitDigitsLitMatch(lit, d, close, rest);
    SubOnce(p, lit + d + close, rest, Then(Lit(lit), Then(Digits, Then(Lit(close), End))), rep);
  }

  /**
   * Rewriting the browser id of a URL that holds `browser_id=N` exactly once puts the
   * new id in place of N and changes nothing else.
   */
  lemma WithBrowserIdOnce(p: string, n: nat, rest: string, browserId: int)
    requires forall i :: 0 <= i < |p| ==> !StartsWith((p + (BrowserIdLit + NatToString(n) + rest))[i..], BrowserIdLit)
    requires (|rest| == 0 || !IsDigit(rest[0])) && !Contains(rest, BrowserIdLit)
    ensures WithBrowserId(p + (BrowserIdLit + NatToString(n)) + rest, browserId) == p + (BrowserIdLit + IntToString(browserId)) + rest
  {
    SubLitDigitsOnce(p, BrowserIdLit, NatToString(n), rest, BrowserIdLit + IntToString(browserId));
  }

  /** Removing the timeout of a URL that holds `timeout=N&` exactly once deletes just that parameter. */
  lemma DropTimeoutOnce(p: string, n: nat, rest: string)
    requires forall i :: 0 <= i < |p| ==> !StartsWith((p + (TimeoutLit + NatToString(n) + "&" + rest))[i..], TimeoutLit)
    requires !Contains(rest, TimeoutLit)
    ensures DropTimeout(p + (TimeoutLit + NatToString(n) + "&") + rest) == p + rest
  {
    SubLitDigitsLitOnce(p, TimeoutLit, NatToString(n), "&", rest, "");
    assert p + "" == p;
  }

  // ---------------------------------------------------------------------------
  // Distinct values, as pandas `unique()` and the categories of a column give them
  // ---------------------------------------------------------------------------

  /** The distinct elements of a list, each at its first occurrence. */
  function Distinct<T(==)>(xs: seq<T>): (r: seq<T>)
    decreases |xs|
  {
    if |xs| == 0 then []
    else
      var init := Distinct(xs[..|xs| - 1]);
      if xs[|xs| - 1] in xs[..|xs| - 1] then init else init + [xs[|xs| - 1]]
  }

  /** The distinct list holds exactly the list's elements, each once. */
  lemma {:induction false} DistinctSpec<T>(xs: seq<T>)
    ensures forall x :: x in Distinct(xs) <==> x in xs
    ensures forall i, j :: 0 <= i < j < |Distinct(xs)| ==> Distinct(xs)[i] != Distinct(xs)[j]
    decreases |xs|
  {
    if |xs| > 0 {
      var init := xs[..|xs| - 1];
      DistinctSpec(init);
      assert xs == init + [xs[|xs| - 1]];
    }
  }

  /** The browser ids of some rows. */
  function BrowserIds(rows: seq<Row>): (r: seq<int>)
    ensures |r| == |rows| && forall k :: 0 <= k < |rows| ==> r[k] == rows[k].browserId
  {
    seq(|rows|, k requires 0 <= k < |rows| => rows[k].browserId)
  }

  // ---------------------------------------------------------------------------
  // Grouping by a key
  // ---------------------------------------------------------------------------

  /** The rows of one group in one browser: one entry of a grouped `value_counts()`. */
  function Count<K(==)>(df: seq<Row>, key: Row -> K, g: K, b: int): (n: nat)
    ensures n <= |df|
    ensures n == 0 <==> forall k :: 0 <= k < |df| ==> !(key(df[k]) == g && df[k].browserId == b)
    decreases |df|
  {
    if |df| == 0 then 0
    else
      var last := df[|df| - 1];
      var init := df[..|df| - 1];
      assert forall k :: 0 <= k < |init| ==> init[k] == df[k];
      Count(init, key, g, b) + (if key(last) == g && last.browserId == b then 1 else 0)
  }

  /** Some row of the list has this test id. */
  predicate Seen<K(==)>(rows: seq<Row>, key: Row -> K, g: K) {
    exists j :: 0 <= j < |rows| && key(rows[j]) == g
  }

  /** `drop_duplicates` on a key: the first row of every key, in order. */
  function FirstRows<K(==)>(df: seq<Row>, key: Row -> K): seq<Row>
    decreases |df|
  {
    if |df| == 0 then []
    else
      var init := df[..|df| - 1];
      FirstRows(init, key) + (if Seen(init, key, key(df[|df| - 1])) then [] else [df[|df| - 1]])
  }

  /** The row is the first of its key. */
  predicate FirstOf<K(==)>(df: seq<Row>, key: Row -> K, r: Row) {
    exists j :: 0 <= j < |df| && df[j] == r && !Seen(df[..j], key, key(r))
  }

  /**
   * Every first row is the first row of its key, every key of the data has one,
   * and no two share a key.
   */
  lemma FirstRowsSpec<K>(df: seq<Row>, key: Row -> K)
    ensures forall r :: r in FirstRows(df, key) ==> FirstOf(df, key, r)
    ensures forall g :: Seen(df, key, g) <==> exists r :: r in FirstRows(df, key) && key(r) == g
    ensures forall i, j :: 0 <= i < j < |FirstRows(df, key)| ==> key(FirstRows(df, key)[i]) != key(FirstRows(df, key)[j])
  {
    FirstRowsFirst(df, key);
    FirstRowsCover(df, key);
    FirstRowsDistinct(df, key);
  }

  lemma {:induction false} FirstRowsFirst<K>(df: seq<Row>, key: Row -> K)
    ensures forall r :: r in FirstRows(df, key) ==> FirstOf(df, key, r)
    decreases |df|
  {
    if |df| > 0 {
      var init := df[..|df| - 1];
      var last := df[|df| - 1];
      FirstRowsFirst(init, key);
      forall r | r in FirstRows(init, key) ensures FirstOf(df, key, r) {
        var j :| 0 <= j < |init| && init[j] == r && !Seen(init[..j], key, key(r));
        assert df[..j] == init[..j];
      }
      if !Seen(init, key, key(last)) {
        assert df[..|df| - 1] == init;
        assert FirstOf(df, key, last);
      }
    }
  }

  lemma {:induction false} FirstRowsCover<K>(df: seq<Row>, key: Row -> K)
    ensures forall g :: Seen(df, key, g) <==> exists r :: r in FirstRows(df, key) && key(r) == g
    decreases |df|
  {
    if |df| > 0 {
      var init := df[..|df| - 1];
      var last := df[|df| - 1];
      FirstRowsCover(init, key);
      var fr := FirstRows(df, key);
      var fi := FirstRows(init, key);
      assert fr == fi + (if Seen(init, key, key(last)) then [] else [last]);
      forall g ensures Seen(df, key, g) <==> exists r :: r in fr && key(r) == g {
        if Seen(df, key, g) {
          var j :| 0 <= j < |df| && key(df[j]) == g;
          if j < |init| {
            assert key(init[j]) == g;
            assert Seen(init, key, g);
            var r :| r in fi && key(r) == g;
            assert r in fr;
          } else if !Seen(init, key, g) {
            assert last in fr;
          } else {
            var r :| r in fi && key(r) == g;
            assert r in fr;
          }
        }
        if exists r :: r in fr && key(r) == g {
          var r :| r in fr && key(r) == g;
          if r in fi {
            assert Seen(init, key, g);
            var j :| 0 <= j < |init| && key(init[j]) == g;
            assert key(df[j]) == g;
          } else {
            assert r == last;
            assert key(df[|df| - 1]) == g;
          }
        }
      }
    }
  }

  lemma {:induction false} FirstRowsDistinct<K>(df: seq<Row>, key: Row -> K)
    ensures forall i, j :: 0 <= i < j < |FirstRows(df, key)| ==> key(FirstRows(df, key)[i]) != key(FirstRows(df, key)[j])
    decreases |df|
  {
    if |df| > 0 {
      var init := df[..|df| - 1];
      var last := df[|df| - 1];
      FirstRowsDistinct(init, key);
      FirstRowsCover(init, key);
      var fr := FirstRows(df, key);
      var fi := FirstRows(init, key);
      if !Seen(init, key, key(last)) {
        forall i | 0 <= i < |fi| ensures key(fi[i]) != key(last) {
          assert fi[i] in fi;
        }
      }
    }
  }

  /** A first occurrence is in the list of first rows. */
  lemma FirstOfIn<K>(df: seq<Row>, key: Row -> K, rep: Row)
    requires FirstOf(df, key, rep)
    ensures rep in FirstRows(df, key)
  {
    FirstRowsSpec(df, key);
    var j :| 0 <= j < |df| && df[j] == rep && !Seen(df[..j], key, key(rep));
    assert Seen(df, key, key(rep)) by {
      assert key(df[j]) == key(rep);
    }
    var r :| r in FirstRows(df, key) && key(r) == key(rep);
    assert FirstOf(df, key, r);
    var i :| 0 <= i < |df| && df[i] == r && !Seen(df[..i], key, key(r));
    FirstIndexUnique(df, key, i, j);
  }

  /** Two first occurrences of the same key are the same position. */
  lemma FirstIndexUnique<K>(df: seq<Row>, key: Row -> K, i: nat, j: nat)
    requires i < |df| && j < |df| && key(df[i]) == key(df[j])
    requires !Seen(df[..i], key, key(df[i])) && !Seen(df[..j], key, key(df[j]))
    ensures i == j
  {
  }

  // ---------------------------------------------------------------------------
  // The to_repeat dictionary
  // ---------------------------------------------------------------------------

  /**
   * `try: d = to_repeat[k] except KeyError: d = set()`, then `d.add(url)` and
   * `to_repeat[k] = d`: the key's set gains the URL, other keys are untouched.
   */
  function Insert(m: map<string, set<string>>, key: string, url: string): (r: map<string, set<string>>)
    ensures r.Keys == m.Keys + {key}
    ensures forall k :: k in m && k != key ==> r[k] == m[k]
  {
    m[key := (if key in m then m[key] else {}) + {url}]
  }

  /** The keys of a set of (key, URL) entries. */
  function KeysOf(entries: set<(string, string)>): set<string> {
    set e | e in entries :: e.0
  }

  /** The URLs the entries give one key. */
  function UrlsOf(entries: set<(string, string)>, k: string): set<string> {
    set e | e in entries && e.0 == k :: e.1
  }

  /** The dictionary holding exactly the given (key, URL) entries: each key maps to the set of its URLs. */
  function BuildSet(entries: set<(string, string)>): map<string, set<string>> {
    map k | k in KeysOf(entries) :: UrlsOf(entries, k)
  }

  /** A key is present exactly when it has an entry, and then its set holds exactly its entries' URLs. */
  lemma BuildSetEntries(entries: set<(string, string)>, k: string, u: string)
    ensures k in BuildSet(entries) <==> exists v :: (k, v) in entries
    ensures (k in BuildSet(entries) && u in BuildSet(entries)[k]) <==> (k, u) in entries
    ensures k in BuildSet(entries) ==> BuildSet(entries)[k] != {}
  {
    if (k, u) in entries {
      assert (k, u).0 in KeysOf(entries);
    }
    if exists v :: (k, v) in entries {
      var v :| (k, v) in entries;
      assert (k, v).0 in KeysOf(entries);
      assert (k, v).1 in UrlsOf(entries, k);
    }
  }

  /** The entries of a list, as a set. */
  function EntrySet(es: seq<(string, string)>): set<(string, string)> {
    set e | e in es
  }

  /** No entries, no keys. */
  lemma BuildSetEmpty()
    ensures BuildSet({}) == map[]
  {
  }

  /** Adding one URL to the dictionary of a set of entries gives the dictionary of the larger set. */
  lemma InsertBuildSet(entries: set<(string, string)>, k: string, u: string)
    ensures Insert(BuildSet(entries), k, u) == BuildSet(entries + {(k, u)})
  {
    var a := Insert(BuildSet(entries), k, u);
    var b := BuildSet(entries + {(k, u)});
    forall key | true ensures (key in a <==> key in b) && (key in a ==> a[key] == b[key]) {
      BuildSetEntries(entries, key, u);
      BuildSetEntries(entries + {(k, u)}, key, u);
      if key in a {
        forall x | x in a[key] ensures x in b[key] {
          BuildSetEntries(entries, key, x);
          BuildSetEntries(entries + {(k, u)}, key, x);
        }
        forall x | x in b[key] ensures x in a[key] {
          BuildSetEntries(entries, key, x);
          BuildSetEntries(entries + {(k, u)}, key, x);
        }
      }
    }
  }

  /**
   * A loop whose body computes one (key, URL) entry or raises, adding each entry to the
   * dictionary: the dictionary of all entries, or the first error.
   */
  function Collect<A>(xs: seq<A>, f: A -> Result<(string, string)>): Result<map<string, set<string>>> {
    match MapResult(xs, f)
    case Err(e) => Err(e)
    case Ok(es) => Ok(BuildSet(EntrySet(es)))
  }

  /** The loop fails exactly when some step does. */
  lemma CollectErr<A>(xs: seq<A>, f: A -> Result<(string, string)>)
    ensures Collect(xs, f).Err? <==> exists k :: 0 <= k < |xs| && f(xs[k]).Err?
  {
    MapResultOk(xs, f);
  }

  /** On success a key is present exactly when some step yields it, with exactly the URLs those steps yield. */
  lemma CollectContents<A>(xs: seq<A>, f: A -> Result<(string, string)>, key: string, url: string)
    requires Collect(xs, f).Ok?
    ensures var m := Collect(xs, f).value;
      (key in m <==> exists k :: 0 <= k < |xs| && f(xs[k]).Ok? && f(xs[k]).value.0 == key)
      && (key in m && url in m[key] <==> exists k :: 0 <= k < |xs| && f(xs[k]) == Ok((key, url)))
  {
    MapResultEach(xs, f);
    var es := MapResult(xs, f).value;
    var entries := EntrySet(es);
    BuildSetEntries(entries, key, url);
    if exists v :: (key, v) in entries {
      var v :| (key, v) in entries;
      var k :| 0 <= k < |es| && es[k] == (key, v);
      assert f(xs[k]) == Ok(es[k]);
    }
    if exists k :: 0 <= k < |xs| && f(xs[k]).Ok? && f(xs[k]).value.0 == key {
      var k :| 0 <= k < |xs| && f(xs[k]).Ok? && f(xs[k]).value.0 == key;
      assert es[k] in entries;
    }
    if (key, url) in entries {
      var k :| 0 <= k < |es| && es[k] == (key, url);
      assert f(xs[k]) == Ok(es[k]);
    }
    if exists k :: 0 <= k < |xs| && f(xs[k]) == Ok((key, url)) {
      var k :| 0 <= k < |xs| && f(xs[k]) == Ok((key, url));
      assert es[k] in entries;
    }
  }

  /** One successful step of the loop inserts its entry. */
  lemma CollectStep<A>(xs: seq<A>, f: A -> Result<(string, string)>, i: nat)
    requires i < |xs| && MapResult(xs[..i], f).Ok? && f(xs[i]).Ok?
    ensures MapResult(xs[..i + 1], f).Ok?
    ensures BuildSet(EntrySet(MapResult(xs[..i + 1], f).value))
      == Insert(BuildSet(EntrySet(MapResult(xs[..i], f).value)), f(xs[i]).value.0, f(xs[i]).value.1)
  {
    assert xs[..i + 1][..i] == xs[..i];
    var es := MapResult(xs[..i], f).value;
    var entry := f(xs[i]).value;
    assert MapResult(xs[..i + 1], f).value == es + [entry];
    assert EntrySet(es + [entry]) == EntrySet(es) + {entry};
    InsertBuildSet(EntrySet(es), entry.0, entry.1);
  }

  /** A failing step ends the loop with its error. */
  lemma CollectStepErr<A>(xs: seq<A>, f: A -> Result<(string, string)>, i: nat)
    requires i < |xs| && MapResult(xs[..i], f).Ok? && f(xs[i]).Err?
    ensures Collect(xs, f) == Err(f(xs[i]).error)
  {
    assert xs[..i + 1][..i] == xs[..i];
    MapResultPrefixErr(xs, f, i + 1);
  }

  /** `to_repeat`: a dictionary from browser id (as a string) to a set of URLs, updated in place. */
  class RepeatDict {
    var toRepeat: map<string, set<string>>

    constructor ()
      ensures toRepeat == map[]
    {
      toRepeat := map[];
    }

    /** Fetch the key's set (empty if missing), add the URL, store it back. */
    method AddUrl(key: string, url: string)
      modifies this
      ensures toRepeat == Insert(old(toRepeat), key, url)
    {
      var d: set<string>;
      if key in toRepeat {
        d := toRepeat[key];
      } else {
        d := {};
      }
      d := d + {url};
      toRepeat := toRepeat[key := d];
    }
  }

}
