/**
 * The older repeat reconciler, `calc_repeat` of _hp/tools/create_repeat.py.
 *
 * The finished rows are grouped by eight identity fields, the cleaned URL among them.
 * For every group the set of distinct browsers that finished it is taken. Every group
 * with fewer browsers than the largest group is scheduled again in each browser of the
 * data that it lacks, with the cleaned URL carrying that browser's id.
 */
module CreateRepeatOld {
  import opened Common
  import opened Strings
  import opened Patterns
  import opened RepeatCommon

  // ---------------------------------------------------------------------------
  // The query and clean_url
  // ---------------------------------------------------------------------------

  /** The rows the query returns (known browsers, no debug responses), in input order. */
  function Query(rows: seq<Row>): (df: seq<Row>)
    ensures forall r :: r in df <==> r in rows && Queried(r)
    decreases |rows|
  {
    if |rows| == 0 then []
    else
      var last := rows[|rows| - 1];
      assert rows == rows[..|rows| - 1] + [last];
      Query(rows[..|rows| - 1]) + (if Queried(last) then [last] else [])
  }

  /** `clean_url`: browser id 1, no popup parameters, no timeout; unlike the newer one it keeps `&run_id=`. */
  function CleanUrl(url: string): string {
    DropTimeout(DropPopups(WithBrowserId(url, 1)))
  }

  /** A URL none of the three expressions can match comes back unchanged. */
  lemma CleanUrlPlain(url: string)
    requires !Contains(url, BrowserIdLit) && !Contains(url, "&first_popup=") && !Contains(url, TimeoutLit)
    ensures CleanUrl(url) == url
  {
    SubAbsent(url, BrowserIdPat, BrowserIdLit + IntToString(1));
    SubAbsent(url, PopupPat, "");
    SubAbsent(url, TimeoutPat, "");
  }

  // ---------------------------------------------------------------------------
  // Grouping (line 37)
  // ---------------------------------------------------------------------------

  /** The eight columns of the `groupby`. */
  datatype GroupKey = GroupKey(
    testName: string, relationInfo: string, orgScheme: string, orgHost: string,
    respScheme: string, respHost: string, responseId: int, cleanUrl: string)

  function KeyOf(r: Row): GroupKey {
    GroupKey(r.testName, r.relationInfo, r.orgScheme, r.orgHost, r.respScheme, r.respHost, r.responseId, CleanUrl(r.fullUrl))
  }

  /** `df.loc[df["test_status"] == 0]` */
  function Finished(df: seq<Row>): (done: seq<Row>)
    ensures forall r :: r in done <==> r in df && r.testStatus == 0
    decreases |df|
  {
    if |df| == 0 then []
    else
      var last := df[|df| - 1];
      assert df == df[..|df| - 1] + [last];
      Finished(df[..|df| - 1]) + (if last.testStatus == 0 then [last] else [])
  }

  /** `all_browsers`: the browser ids of all rows of the query (line 33). */
  function AllBrowsers(df: seq<Row>): set<int> {
    set r | r in df :: r.browserId
  }

  /** `["browser_id"].unique()` of one group, as a set. */
  function GroupBrowsers<K(==)>(done: seq<Row>, key: Row -> K, g: K): set<int> {
    set r | r in done && key(r) == g :: r.browserId
  }

  /**
   * `browser_count.apply(len).max()` over the groups given by their first rows: at least
   * every group's count, and reached by one of them when there is a group.
   */
  function MaxCount<K(==)>(done: seq<Row>, key: Row -> K, reps: seq<Row>): (n: nat)
    ensures forall i :: 0 <= i < |reps| ==> |GroupBrowsers(done, key, key(reps[i]))| <= n
    ensures |reps| > 0 ==> exists i :: 0 <= i < |reps| && |GroupBrowsers(done, key, key(reps[i]))| == n
    ensures |reps| == 0 ==> n == 0
    decreases |reps|
  {
    if |reps| == 0 then 0
    else
      var init := reps[..|reps| - 1];
      var c := |GroupBrowsers(done, key, key(reps[|reps| - 1]))|;
      var m := MaxCount(done, key, init);
      assert forall i :: 0 <= i < |init| ==> init[i] == reps[i];
      if c > m then c else m
  }

  // ---------------------------------------------------------------------------
  // The planned URLs (lines 38-51)
  // ---------------------------------------------------------------------------

  /** The entries of one group scheduled in the browsers it misses. */
  function GroupEntries(url: string, missing: set<int>): set<(string, string)> {
    set b | b in missing :: (IntToString(b), WithBrowserId(url, b))
  }

  /**
   * The entries one group contributes: none at the maximum count, else one per missing
   * browser. The group is given by its first row `rep`, its key by `key` and its cleaned
   * URL by `clean`.
   */
  function RowEntries<K(==)>(done: seq<Row>, key: Row -> K, clean: Row -> string, all: set<int>, maxC: nat, rep: Row): set<(string, string)> {
    var have := GroupBrowsers(done, key, key(rep));
    if |have| != maxC then GroupEntries(clean(rep), all - have) else {}
  }

  /** The union of one set per element of a list, accumulated front to back. */
  function Union<A, E>(xs: seq<A>, f: A -> set<E>): set<E>
    decreases |xs|
  {
    if |xs| == 0 then {} else Union(xs[..|xs| - 1], f) + f(xs[|xs| - 1])
  }

  /** An element of the union belongs to the set of some element of the list. */
  lemma {:induction false} UnionIff<A, E>(xs: seq<A>, f: A -> set<E>, e: E)
    ensures e in Union(xs, f) <==> exists i :: 0 <= i < |xs| && e in f(xs[i])
    decreases |xs|
  {
    if |xs| > 0 {
      var init := xs[..|xs| - 1];
      UnionIff(init, f, e);
      if e in Union(init, f) {
        var i :| 0 <= i < |init| && e in f(init[i]);
        assert init[i] == xs[i];
      }
      if exists i :: 0 <= i < |xs| && e in f(xs[i]) {
        var i :| 0 <= i < |xs| && e in f(xs[i]);
        if i < |init| {
          assert init[i] == xs[i];
        }
      }
    }
  }

  /** The entries of a list of groups. */
  function EntriesOf<K(==)>(done: seq<Row>, key: Row -> K, clean: Row -> string, all: set<int>, maxC: nat, reps: seq<Row>): set<(string, string)> {
    Union(reps, rep => RowEntries(done, key, clean, all, maxC, rep))
  }

  /** The cleaned URL of a row, the last column of its key. */
  function CleanOf(r: Row): string {
    KeyOf(r).cleanUrl
  }

  /** `to_repeat` as the query's rows determine it. */
  function ToRepeatOld(rows: seq<Row>): map<string, set<string>> {
    var df := Query(rows);
    var done := Finished(df);
    var reps := FirstRows(done, KeyOf);
    BuildSet(EntriesOf(done, KeyOf, CleanOf, AllBrowsers(df), MaxCount(done, KeyOf, reps), reps))
  }

  /** The group of `rep` is below the maximum and `(k, u)` schedules it in a browser it misses. */
  predicate Scheduled<K(==)>(done: seq<Row>, key: Row -> K, clean: Row -> string, all: set<int>, maxC: nat, rep: Row, k: string, u: string) {
    var have := GroupBrowsers(done, key, key(rep));
    |have| != maxC && exists b :: b in all - have && k == IntToString(b) && u == WithBrowserId(clean(rep), b)
  }

  /** The entries of one group are exactly the pairs that schedule it. */
  lemma RowEntriesIff<K>(done: seq<Row>, key: Row -> K, clean: Row -> string, all: set<int>, maxC: nat, rep: Row, k: string, u: string)
    ensures (k, u) in RowEntries(done, key, clean, all, maxC, rep) <==> Scheduled(done, key, clean, all, maxC, rep, k, u)
  {
    var have := GroupBrowsers(done, key, key(rep));
    if Scheduled(done, key, clean, all, maxC, rep, k, u) {
      var b :| b in all - have && k == IntToString(b) && u == WithBrowserId(clean(rep), b);
      assert (IntToString(b), WithBrowserId(clean(rep), b)) in GroupEntries(clean(rep), all - have);
    }
  }

  /** An entry of a list of groups schedules one of them. */
  lemma EntriesOfIff<K>(done: seq<Row>, key: Row -> K, clean: Row -> string, all: set<int>, maxC: nat, reps: seq<Row>, k: string, u: string)
    ensures (k, u) in EntriesOf(done, key, clean, all, maxC, reps) <==>
      exists i :: 0 <= i < |reps| && Scheduled(done, key, clean, all, maxC, reps[i], k, u)
  {
    var f := rep => RowEntries(done, key, clean, all, maxC, rep);
    UnionIff(reps, f, (k, u));
    forall i | 0 <= i < |reps|
      ensures (k, u) in f(reps[i]) <==> Scheduled(done, key, clean, all, maxC, reps[i], k, u)
    {
      RowEntriesIff(done, key, clean, all, maxC, reps[i], k, u);
    }
  }

  /** Scheduling depends on a row only through its group key and cleaned URL. */
  lemma ScheduledByGroup<K>(done: seq<Row>, key: Row -> K, clean: Row -> string, all: set<int>, maxC: nat, r: Row, rep: Row, k: string, u: string)
    requires key(r) == key(rep) && clean(r) == clean(rep)
    ensures Scheduled(done, key, clean, all, maxC, r, k, u) <==> Scheduled(done, key, clean, all, maxC, rep, k, u)
  {
  }

  /** The largest group size of the finished rows. */
  function MaxC(done: seq<Row>): nat {
    MaxCount(done, KeyOf, FirstRows(done, KeyOf))
  }

  /** With the cleaned URL fixed by the key, the entries of the first rows schedule some row's group. */
  lemma GroupEntriesIff<K>(done: seq<Row>, key: Row -> K, clean: Row -> string, all: set<int>, maxC: nat, k: string, u: string)
    requires forall r, r' :: r in done && r' in done && key(r) == key(r') ==> clean(r) == clean(r')
    ensures (k, u) in EntriesOf(done, key, clean, all, maxC, FirstRows(done, key)) <==>
      exists r :: r in done && Scheduled(done, key, clean, all, maxC, r, k, u)
  {
    var reps := FirstRows(done, key);
    EntriesOfIff(done, key, clean, all, maxC, reps, k, u);
    FirstRowsSpec(done, key);
    if (k, u) in EntriesOf(done, key, clean, all, maxC, reps) {
      var i :| 0 <= i < |reps| && Scheduled(done, key, clean, all, maxC, reps[i], k, u);
      assert FirstOf(done, key, reps[i]);
      var j :| 0 <= j < |done| && done[j] == reps[i] && !Seen(done[..j], key, key(reps[i]));
    }
    if exists r :: r in done && Scheduled(done, key, clean, all, maxC, r, k, u) {
      var r :| r in done && Scheduled(done, key, clean, all, maxC, r, k, u);
      var j :| 0 <= j < |done| && done[j] == r;
      assert Seen(done, key, key(r));
      var rep :| rep in reps && key(rep) == key(r);
      assert FirstOf(done, key, rep);
      var j' :| 0 <= j' < |done| && done[j'] == rep && !Seen(done[..j'], key, key(rep));
      ScheduledByGroup(done, key, clean, all, maxC, r, rep, k, u);
      var i :| 0 <= i < |reps| && reps[i] == rep;
    }
  }

  /**
   * The dictionary holds URL `u` for browser `k` exactly when some finished row's group has
   * fewer browsers than the largest group, misses a browser of the data whose id reads `k`,
   * and `u` is that group's cleaned URL with that browser's id.
   */
  lemma ToRepeatOldContents(rows: seq<Row>, k: string, u: string)
    ensures var df := Query(rows);
      var done := Finished(df);
      var m := ToRepeatOld(rows);
      (k in m && u in m[k]) <==>
        exists r :: r in done && Scheduled(done, KeyOf, CleanOf, AllBrowsers(df), MaxC(done), r, k, u)
  {
    var df := Query(rows);
    var done := Finished(df);
    var all := AllBrowsers(df);
    BuildSetEntries(EntriesOf(done, KeyOf, CleanOf, all, MaxC(done), FirstRows(done, KeyOf)), k, u);
    forall r, r' | r in done && r' in done && KeyOf(r) == KeyOf(r') ensures CleanOf(r) == CleanOf(r') {
    }
    GroupEntriesIff(done, KeyOf, CleanOf, all, MaxC(done), k, u);
  }

  // ---------------------------------------------------------------------------
  // Which groups are repeated
  // ---------------------------------------------------------------------------

  /** A subset is no larger, and one of the same size is the whole set. */
  lemma SubsetCard<T>(a: set<T>, b: set<T>)
    requires a <= b
    ensures |a| <= |b|
    ensures |a| == |b| ==> a == b
  {
    assert b == a + (b - a);
  }

  /**
   * A group that every browser of the data finished is at the maximum count, so it is
   * never repeated.
   */
  lemma CompleteGroupNotRepeated<K>(done: seq<Row>, key: Row -> K, all: set<int>, reps: seq<Row>, j: nat)
    requires forall r :: r in done ==> r.browserId in all
    requires j < |reps|
    ensures all <= GroupBrowsers(done, key, key(reps[j])) ==> |GroupBrowsers(done, key, key(reps[j]))| == MaxCount(done, key, reps)
  {
    var have := GroupBrowsers(done, key, key(reps[j]));
    var i :| 0 <= i < |reps| && |GroupBrowsers(done, key, key(reps[i]))| == MaxCount(done, key, reps);
    var top := GroupBrowsers(done, key, key(reps[i]));
    assert top <= all;
    assert have <= all;
    SubsetCard(top, all);
    SubsetCard(have, all);
    if all <= have {
      SubsetCard(all, have);
    }
  }

  /**
   * When some group is complete, the maximum is the number of browsers, and a group is
   * repeated exactly when it misses a browser.
   */
  lemma RepeatedIffMissing<K>(done: seq<Row>, key: Row -> K, all: set<int>, reps: seq<Row>, full: nat, j: nat)
    requires forall r :: r in done ==> r.browserId in all
    requires full < |reps| && all <= GroupBrowsers(done, key, key(reps[full]))
    requires j < |reps|
    ensures MaxCount(done, key, reps) == |all|
    ensures |GroupBrowsers(done, key, key(reps[j]))| != MaxCount(done, key, reps) <==> all - GroupBrowsers(done, key, key(reps[j])) != {}
  {
    var have := GroupBrowsers(done, key, key(reps[j]));
    var whole := GroupBrowsers(done, key, key(reps[full]));
    assert whole <= all;
    SubsetCard(all, whole);
    CompleteGroupNotRepeated(done, key, all, reps, full);
    assert have <= all;
    SubsetCard(have, all);
    DifferenceEmpty(have, all);
  }

  /** Below a set, missing nothing of it and having its size are the same. */
  lemma DifferenceEmpty<T>(have: set<T>, all: set<T>)
    requires have <= all
    ensures |have| != |all| <==> all - have != {}
  {
    SubsetCard(have, all);
    if all - have == {} {
      forall x | x in all ensures x in have {
        assert x !in all - have;
      }
      assert all == have;
    }
  }

  // ---------------------------------------------------------------------------
  // The loops (lines 41-51)
  // ---------------------------------------------------------------------------

  /** One more missing browser adds its one entry. */
  lemma GroupEntriesAdd(url: string, seen: set<int>, b: int)
    ensures GroupEntries(url, seen + {b}) == GroupEntries(url, seen) + {(IntToString(b), WithBrowserId(url, b))}
  {
  }

  /** Adding one missing browser's URL to the dictionary of the entries so far. */
  lemma AddGroupStep(before: set<(string, string)>, url: string, seen: set<int>, b: int)
    ensures Insert(BuildSet(before + GroupEntries(url, seen)), IntToString(b), WithBrowserId(url, b))
      == BuildSet(before + GroupEntries(url, seen + {b}))
  {
    GroupEntriesAdd(url, seen, b);
    assert before + GroupEntries(url, seen + {b}) == (before + GroupEntries(url, seen)) + {(IntToString(b), WithBrowserId(url, b))};
    InsertBuildSet(before + GroupEntries(url, seen), IntToString(b), WithBrowserId(url, b));
  }

  /** One more group adds its entries. */
  lemma EntriesOfStep<K>(done: seq<Row>, key: Row -> K, clean: Row -> string, all: set<int>, maxC: nat, reps: seq<Row>, i: nat)
    requires i < |reps|
    ensures EntriesOf(done, key, clean, all, maxC, reps[..i + 1])
      == EntriesOf(done, key, clean, all, maxC, reps[..i]) + RowEntries(done, key, clean, all, maxC, reps[i])
  {
    assert reps[..i + 1][..i] == reps[..i];
  }

  /**
   * `calc_repeat`: the dictionary of the planned URLs, built by visiting the groups and, for
   * each group below the maximum, its missing browsers one at a time.
   */
  method CalcRepeatOld(rows: seq<Row>) returns (m: map<string, set<string>>)
    ensures m == ToRepeatOld(rows)
  {
    var df := Query(rows);
    var done := Finished(df);
    var groups := FirstRows(done, KeyOf);
    m := FillRepeatOld(done, KeyOf, CleanOf, AllBrowsers(df), MaxCount(done, KeyOf, groups), groups);
  }

  /** The loop over the groups and the inner loop over the browsers a group misses. */
  method FillRepeatOld<K(==)>(done: seq<Row>, key: Row -> K, clean: Row -> string, all: set<int>, maxC: nat, groups: seq<Row>)
    returns (m: map<string, set<string>>)
    ensures m == BuildSet(EntriesOf(done, key, clean, all, maxC, groups))
  {
    var toRepeat := new RepeatDict();
    BuildSetEmpty();
    var i := 0;
    while i < |groups|
      invariant 0 <= i <= |groups|
      invariant toRepeat.toRepeat == BuildSet(EntriesOf(done, key, clean, all, maxC, groups[..i]))
    {
      AddRow(toRepeat, EntriesOf(done, key, clean, all, maxC, groups[..i]), done, key, clean, all, maxC, groups[i]);
      EntriesOfStep(done, key, clean, all, maxC, groups, i);
      i := i + 1;
    }
    assert groups[..i] == groups;
    m := toRepeat.toRepeat;
  }

  /** One group of `missing`: repeated in the browsers it misses when below the maximum count. */
  method AddRow<K(==)>(toRepeat: RepeatDict, ghost before: set<(string, string)>,
                       done: seq<Row>, key: Row -> K, clean: Row -> string, all: set<int>, maxC: nat, rep: Row)
    requires toRepeat.toRepeat == BuildSet(before)
    modifies toRepeat
    ensures toRepeat.toRepeat == BuildSet(before + RowEntries(done, key, clean, all, maxC, rep))
  {
    var have := GroupBrowsers(done, key, key(rep));
    if |have| != maxC {
      AddGroup(toRepeat, before, clean(rep), all - have);
    } else {
      assert before + RowEntries(done, key, clean, all, maxC, rep) == before;
    }
  }

  /** The inner loop: the group's cleaned URL, with each missing browser's id, goes into that browser's set. */
  method AddGroup(toRepeat: RepeatDict, ghost before: set<(string, string)>, url: string, missing: set<int>)
    requires toRepeat.toRepeat == BuildSet(before)
    modifies toRepeat
    ensures toRepeat.toRepeat == BuildSet(before + GroupEntries(url, missing))
  {
    var todo := missing;
    ghost var seen: set<int> := {};
    assert GroupEntries(url, seen) == {};
    assert before + {} == before;
    while todo != {}
      invariant seen + todo == missing
      invariant toRepeat.toRepeat == BuildSet(before + GroupEntries(url, seen))
      decreases |todo|
    {
      NonEmptyHas(todo);
      var b :| b in todo;
      AddBrowser(toRepeat, before, url, seen, b);
      todo := todo - {b};
      seen := seen + {b};
    }
  }

  /** One step of the inner loop: `str(browser_id)` gets the URL with that browser id. */
  method AddBrowser(toRepeat: RepeatDict, ghost before: set<(string, string)>, url: string, ghost seen: set<int>, b: int)
    requires toRepeat.toRepeat == BuildSet(before + GroupEntries(url, seen))
    modifies toRepeat
    ensures toRepeat.toRepeat == BuildSet(before + GroupEntries(url, seen + {b}))
  {
    var browserId := IntToString(b);
    var retry := WithBrowserId(url, b);
    AddGroupStep(before, url, seen, b);
    toRepeat.AddUrl(browserId, retry);
  }
}
