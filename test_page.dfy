/**
 * The test-selection rules of the shared test-page script
 * (_hp/resources/store_results.sub.js): which scheme the page itself was
 * loaded over, which origins a page tests, and which (response id × origin ×
 * declared test) triples `run_tests` actually runs, given the page's URL
 * parameters. Declaring a test is modelled by recording the call it receives.
 */
module TestPage {
  import opened Common
  import opened Strings
  import opened Patterns

  // ---------------------------------------------------------------------------
  // The page's own scheme (line 5)
  // ---------------------------------------------------------------------------

  /**
   * `org_scheme`: "http2" when the page was served on port 9000, otherwise "http" for
   * an `http:` page and "https" for anything else. `port` is the page's explicit port,
   * `None` for the scheme's default.
   */
  function OrgScheme(port: Option<int>, protocol: string): (r: string)
    ensures r == "http2" <==> port == Some(9000)
    ensures r == "http" <==> port != Some(9000) && protocol == "http:"
    ensures r == "https" <==> port != Some(9000) && protocol != "http:"
  {
    if port == Some(9000) then "http2" else if protocol == "http:" then "http" else "https"
  }

  // ---------------------------------------------------------------------------
  // get_test_origins (lines 14-38)
  // ---------------------------------------------------------------------------

  /** The four hosts, in the order the origins are built: same host, parent, sub-domain, cross-site. */
  function TestHosts(host: string, altHost: string): (hosts: seq<string>)
    ensures |hosts| == 4
  {
    ["sub." + host, host, "sub.sub." + host, altHost]
  }

  /** Whether the http origins are left out: the page has a non-empty `search` parameter and was loaded over https. */
  predicate SkipsHttp(search: string, orgScheme: string) {
    |search| > 0 && orgScheme == "https"
  }

  /** The origins built for a list of hosts: per host its http origin (unless skipped), then its https one. */
  function HostOrigins(hosts: seq<string>, skipHttp: bool): (origins: seq<string>)
    ensures |origins| == if skipHttp then |hosts| else 2 * |hosts|
    decreases |hosts|
  {
    if |hosts| == 0 then []
    else
      var h := hosts[|hosts| - 1];
      HostOrigins(hosts[..|hosts| - 1], skipHttp) + (if skipHttp then [] else ["http://" + h]) + ["https://" + h]
  }

  /** HostOrigins places host k's origins at position k (https only) or 2k and 2k+1 (http, then https). */
  lemma {:induction false} HostOriginsAt(hosts: seq<string>, skipHttp: bool)
    ensures var o := HostOrigins(hosts, skipHttp);
      (skipHttp ==> forall k :: 0 <= k < |hosts| ==> o[k] == "https://" + hosts[k])
      && (!skipHttp ==> forall k :: 0 <= k < |hosts| ==> o[2 * k] == "http://" + hosts[k] && o[2 * k + 1] == "https://" + hosts[k])
    decreases |hosts|
  {
    if |hosts| > 0 {
      var init := hosts[..|hosts| - 1];
      HostOriginsAt(init, skipHttp);
      var o := HostOrigins(hosts, skipHttp);
      var oi := HostOrigins(init, skipHttp);
      assert o[..|oi|] == oi;
      forall k | 0 <= k < |init| ensures hosts[k] == init[k] { }
    }
  }

  /** The origins `get_test_origins` returns. */
  function DefaultOrigins(respType: string, host: string, altHost: string, search: string, orgScheme: string): seq<string> {
    if respType == "parsing" then ["https://" + altHost]
    else HostOrigins(TestHosts(host, altHost), SkipsHttp(search, orgScheme))
  }

  /**
   * `get_test_origins`. In parsing mode only the cross-site https origin is tested.
   * Otherwise every host gets its http origin (unless skipped) followed by its https one.
   */
  method TestOrigins(respType: string, host: string, altHost: string, search: string, orgScheme: string)
    returns (origins: seq<string>)
    ensures origins == DefaultOrigins(respType, host, altHost, search, orgScheme)
  {
    if respType == "parsing" {
      return ["https://" + altHost];
    }
    var hosts := TestHosts(host, altHost);
    var skip := SkipsHttp(search, orgScheme);
    origins := [];
    for i := 0 to |hosts|
      invariant origins == HostOrigins(hosts[..i], skip)
    {
      assert hosts[..i + 1][..i] == hosts[..i];
      if !skip {
        origins := origins + ["http://" + hosts[i]];
      }
      origins := origins + ["https://" + hosts[i]];
    }
    assert hosts[..|hosts|] == hosts;
  }

  /**
   * The default origins: one cross-site https origin in parsing mode; otherwise the four
   * hosts over https, each preceded by its http origin unless the page is an https page
   * with a search string.
   */
  lemma DefaultOriginsContents(respType: string, host: string, altHost: string, search: string, orgScheme: string)
    ensures var o := DefaultOrigins(respType, host, altHost, search, orgScheme);
      var hosts := TestHosts(host, altHost);
      (respType == "parsing" ==> o == ["https://" + altHost])
      && (respType != "parsing" && SkipsHttp(search, orgScheme) ==>
            |o| == 4 && forall k :: 0 <= k < 4 ==> o[k] == "https://" + hosts[k])
      && (respType != "parsing" && !SkipsHttp(search, orgScheme) ==>
            |o| == 8 && forall k :: 0 <= k < 4 ==> o[2 * k] == "http://" + hosts[k] && o[2 * k + 1] == "https://" + hosts[k])
  {
    HostOriginsAt(TestHosts(host, altHost), SkipsHttp(search, orgScheme));
  }

  // ---------------------------------------------------------------------------
  // The URL parameters of run_tests (lines 54-68)
  // ---------------------------------------------------------------------------

  /** Whether the text after leading white space starts with a sign. */
  predicate JsSigned(t: string) {
    |t| > 0 && (t[0] == '-' || t[0] == '+')
  }

  /** What `parseInt` reads digits from: the text after leading white space and an optional sign. */
  function JsUnsigned(s: string): string {
    var t := StripLeft(s);
    if JsSigned(t) then t[1..] else t
  }

  /**
   * JavaScript's `parseInt(s, 10)`: leading white space is skipped, an optional sign is
   * read, then as many decimal digits as follow; without any digit the result is NaN (None).
   */
  function JsParseInt(s: string): (r: Option<int>)
    ensures r.None? <==> |LeadingDigits(JsUnsigned(s))| == 0
    ensures r.Some? && !(JsSigned(StripLeft(s)) && StripLeft(s)[0] == '-') ==> r.value >= 0
  {
    var t := StripLeft(s);
    var digits := LeadingDigits(JsUnsigned(s));
    if |digits| == 0 then None
    else
      var v: int := DigitsValue(digits);
      Some(if JsSigned(t) && t[0] == '-' then -v else v)
  }

  /** `parseInt` reads back `String(i)`, whatever non-digit text follows it. */
  lemma JsParseIntOfString(i: int, rest: string)
    requires |rest| == 0 || !IsDigit(rest[0])
    ensures JsParseInt(IntToString(i) + rest) == Some(i)
  {
    var s := IntToString(i) + rest;
    if i < 0 {
      JsUnsignedNegative(NatToString(-i), rest);
      LeadingDigitsOf(NatToString(-i), rest);
      NatToStringValue(-i);
    } else {
      JsUnsignedDigits(NatToString(i), rest);
      LeadingDigitsOf(NatToString(i), rest);
      NatToStringValue(i);
    }
  }

  lemma {:induction false} JsUnsignedNegative(d: string, rest: string)
    requires |d| > 0 && AllDigits(d)
    ensures var s := "-" + d + rest; StripLeft(s) == s && JsSigned(s) && s[0] == '-' && JsUnsigned(s) == d + rest
  {
    var s := "-" + d + rest;
    assert s[0] == '-' && !IsSpace(s[0]);
    assert s[1..] == d + rest;
  }

  lemma {:induction false} JsUnsignedDigits(d: string, rest: string)
    requires |d| > 0 && AllDigits(d)
    ensures var s := d + rest; StripLeft(s) == s && !JsSigned(s) && JsUnsigned(s) == s
  {
    var s := d + rest;
    assert s[0] == d[0] && IsDigit(s[0]);
    assert !IsSpace(s[0]) && !JsSigned(s);
  }

  /** `parseInt(urlParams.get(name), 10)`: an absent parameter reads as the string "null", which is NaN. */
  function ParamInt(p: Option<string>): Option<int> {
    if p.None? then None else JsParseInt(p.value)
  }

  /** A popup bound: a number, or Infinity. */
  datatype Bound = Finite(n: int) | Infinity

  predicate AtMost(x: int, b: Bound) {
    b.Infinity? || x <= b.n
  }

  /** The raw URL parameters the page reads (`None` when a parameter is absent). */
  datatype UrlParams = UrlParams(
    respType: Option<string>,
    firstId: Option<string>,
    lastId: Option<string>,
    firstPopup: Option<string>,
    lastPopup: Option<string>,
    runNoPopup: Option<string>,
    tRespId: Option<string>,
    tRespOrigin: Option<string>,
    tElementRelation: Option<string>)

  /** The settings `run_tests` derives from them. */
  datatype Settings = Settings(
    respType: string,
    firstId: Option<int>,
    lastId: Option<int>,
    firstPopup: int,
    lastPopup: Bound,
    runNoPopup: string,
    tRespId: Option<int>,
    tRespOrigin: Option<string>,
    elementRelation: Option<string>)

  /** `x || null` for a parsed number: NaN and 0 are falsy. */
  function NumberOrNull(v: Option<int>): (r: Option<int>)
    ensures r.Some? ==> r.value != 0
  {
    if v == Some(0) then None else v
  }

  /** `x || null` for a string parameter: absent and empty are falsy. */
  function StringOrNull(p: Option<string>): (r: Option<string>)
    ensures r.Some? ==> |r.value| > 0
  {
    if p.None? || p.value == "" then None else p
  }

  /** `x || d` for a string parameter. */
  function StringOr(p: Option<string>, d: string): (r: string)
    ensures p.None? || p.value == "" ==> r == d
  {
    if p.None? || p.value == "" then d else p.value
  }

  /** Lines 54-68: each setting with its default. */
  function SettingsOf(u: UrlParams): (s: Settings)
    ensures s.firstPopup == (if ParamInt(u.firstPopup).Some? then ParamInt(u.firstPopup).value else 0)
    ensures s.lastPopup == (if NumberOrNull(ParamInt(u.lastPopup)).Some? then Finite(ParamInt(u.lastPopup).value) else Infinity)
  {
    var firstPopup := ParamInt(u.firstPopup);
    var lastPopup := NumberOrNull(ParamInt(u.lastPopup));
    Settings(
      StringOr(u.respType, "debug"),
      NumberOrNull(ParamInt(u.firstId)),
      NumberOrNull(ParamInt(u.lastId)),
      if firstPopup.Some? then firstPopup.value else 0,
      if lastPopup.Some? then Finite(lastPopup.value) else Infinity,
      StringOr(u.runNoPopup, "yes"),
      NumberOrNull(ParamInt(u.tRespId)),
      StringOrNull(u.tRespOrigin),
      StringOrNull(u.tElementRelation))
  }

  /** Without popup parameters the window is [0, Infinity] and non-popup tests run. */
  lemma DefaultSettings(u: UrlParams)
    requires u.firstPopup.None? && u.lastPopup.None? && u.runNoPopup.None? && u.tRespId.None?
    ensures var s := SettingsOf(u);
      s.firstPopup == 0 && s.lastPopup == Infinity && s.runNoPopup == "yes" && s.tRespId.None?
  {
  }

  // ---------------------------------------------------------------------------
  // The selection loops of run_tests (lines 76-120)
  // ---------------------------------------------------------------------------

  /** A declared test: whether it opens a popup, and its element relation (None when undefined). */
  datatype TestDecl = TestDecl(popup: bool, elementRelation: Option<string>)

  /** One candidate the loops reach: a response id, an origin and a declared test. */
  datatype Triple = Triple(responseId: int, origin: string, decl: TestDecl)

  /** A declared test being run: `test(origin + path, origin, response_id)`. */
  datatype Call = Call(url: string, origin: string, responseId: int, decl: TestDecl)

  /** The loop state: the calls made so far and `popup_count`. */
  datatype RunState = RunState(calls: seq<Call>, popupCount: int)

  /** The manual-confirmation filter (lines 83-93): with `t_resp_id` set, only the exact instance passes. */
  predicate PassesFilter(s: Settings, t: Triple) {
    s.tRespId.None? ||
    (t.responseId == s.tRespId.value && s.tRespOrigin == Some(t.origin) && s.elementRelation == t.decl.elementRelation)
  }

  /** A popup test runs when its count is inside the window. */
  predicate InWindow(s: Settings, count: int) {
    count >= s.firstPopup && AtMost(count, s.lastPopup)
  }

  function CallOf(t: Triple, path: string): Call {
    Call(t.origin + path, t.origin, t.responseId, t.decl)
  }

  /** The innermost loop body for one reached triple. */
  function Step(s: Settings, path: string, st: RunState, t: Triple): RunState {
    if !PassesFilter(s, t) then st
    else if t.decl.popup then
      var count := st.popupCount + 1;
      RunState(if InWindow(s, count) then st.calls + [CallOf(t, path)] else st.calls, count)
    else RunState(if s.runNoPopup == "yes" then st.calls + [CallOf(t, path)] else st.calls, st.popupCount)
  }

  /** The loop body applied to the triples in order. */
  function Run(s: Settings, path: string, st: RunState, ts: seq<Triple>): RunState
    decreases |ts|
  {
    if |ts| == 0 then st else Step(s, path, Run(s, path, st, ts[..|ts| - 1]), ts[|ts| - 1])
  }

  /** Running two stretches of triples one after the other is running their concatenation. */
  lemma {:induction false} RunAppend(s: Settings, path: string, st: RunState, a: seq<Triple>, b: seq<Triple>)
    ensures Run(s, path, st, a + b) == Run(s, path, Run(s, path, st, a), b)
    decreases |b|
  {
    if |b| == 0 {
      assert a + b == a;
    } else {
      assert (a + b)[..|a + b| - 1] == a + b[..|b| - 1];
      RunAppend(s, path, st, a, b[..|b| - 1]);
    }
  }

  /** The triples of the test loop for one response id and origin. */
  function DeclTriples(id: int, origin: string, decls: seq<TestDecl>): (ts: seq<Triple>)
    ensures |ts| == |decls| && forall k :: 0 <= k < |decls| ==> ts[k] == Triple(id, origin, decls[k])
  {
    seq(|decls|, k requires 0 <= k < |decls| => Triple(id, origin, decls[k]))
  }

  /** The triples of the origin loop for one response id: origins outer, tests inner. */
  function OriginTriples(id: int, origins: seq<string>, decls: seq<TestDecl>): (ts: seq<Triple>)
    ensures |ts| == |origins| * |decls|
    decreases |origins|
  {
    if |origins| == 0 then []
    else OriginTriples(id, origins[..|origins| - 1], decls) + DeclTriples(id, origins[|origins| - 1], decls)
  }

  /** The triples of the whole nest: response ids outermost, then origins, then tests. */
  function AllTriples(ids: seq<int>, origins: seq<string>, decls: seq<TestDecl>): (ts: seq<Triple>)
    decreases |ids|
  {
    if |ids| == 0 then []
    else AllTriples(ids[..|ids| - 1], origins, decls) + OriginTriples(ids[|ids| - 1], origins, decls)
  }

  /** `for (response_id = first_id; response_id < last_id + 1; response_id++)` */
  function IdRange(first: int, last: int): (ids: seq<int>)
    ensures |ids| == if first <= last then last - first + 1 else 0
    ensures forall k :: 0 <= k < |ids| ==> ids[k] == first + k
  {
    seq(if first <= last then last - first + 1 else 0, k => first + k)
  }

  /** The body of the innermost loop (lines 80-105) for one reached triple. */
  method Visit(s: Settings, path: string, st0: RunState, id: int, origin: string, decl: TestDecl)
    returns (st: RunState)
    ensures st == Step(s, path, st0, Triple(id, origin, decl))
  {
    st := st0;
    if s.tRespId.Some? {
      if s.tRespId.value != id {
        return;
      }
      if s.tRespOrigin != Some(origin) {
        return;
      }
      if s.elementRelation != decl.elementRelation {
        return;
      }
    }
    if decl.popup {
      var count := st.popupCount + 1;
      if count >= s.firstPopup && (s.lastPopup.Infinity? || count <= s.lastPopup.n) {
        st := RunState(st.calls + [Call(origin + path, origin, id, decl)], count);
      } else {
        st := st.(popupCount := count);
      }
    } else if s.runNoPopup == "yes" {
      st := st.(calls := st.calls + [Call(origin + path, origin, id, decl)]);
    }
  }

  /** The test loop for one response id and origin. */
  method RunDecls(s: Settings, path: string, st0: RunState, id: int, origin: string, decls: seq<TestDecl>)
    returns (st: RunState)
    ensures st == Run(s, path, st0, DeclTriples(id, origin, decls))
  {
    st := st0;
    for k := 0 to |decls|
      invariant st == Run(s, path, st0, DeclTriples(id, origin, decls[..k]))
    {
      ghost var next := DeclTriples(id, origin, decls[..k + 1]);
      assert next[..k] == DeclTriples(id, origin, decls[..k]);
      assert next[k] == Triple(id, origin, decls[k]);
      st := Visit(s, path, st, id, origin, decls[k]);
    }
    assert decls[..|decls|] == decls;
  }

  /** The origin loop for one response id. */
  method RunOrigins(s: Settings, path: string, st0: RunState, id: int, origins: seq<string>, decls: seq<TestDecl>)
    returns (st: RunState)
    ensures st == Run(s, path, st0, OriginTriples(id, origins, decls))
  {
    st := st0;
    for j := 0 to |origins|
      invariant st == Run(s, path, st0, OriginTriples(id, origins[..j], decls))
    {
      assert origins[..j + 1][..j] == origins[..j];
      RunAppend(s, path, st0, OriginTriples(id, origins[..j], decls), DeclTriples(id, origins[j], decls));
      st := RunDecls(s, path, st, id, origins[j], decls);
    }
    assert origins[..|origins|] == origins;
  }

  /** The response-id loop `for (response_id = first; response_id < last + 1; response_id++)` (line 78). */
  method RunIds(s: Settings, path: string, first: int, last: int, origins: seq<string>, decls: seq<TestDecl>)
    returns (st: RunState)
    ensures st == Run(s, path, RunState([], 0), AllTriples(IdRange(first, last), origins, decls))
  {
    var ids := IdRange(first, last);
    st := RunState([], 0);
    var responseId := first;
    while responseId < last + 1
      invariant first <= responseId
      invariant first <= last + 1 ==> responseId <= last + 1
      invariant first > last ==> responseId == first
      invariant st == Run(s, path, RunState([], 0), AllTriples(ids[..responseId - first], origins, decls))
      decreases last + 1 - responseId
    {
      var n := responseId - first;
      assert ids[..n + 1][..n] == ids[..n];
      assert ids[n] == responseId;
      RunAppend(s, path, RunState([], 0), AllTriples(ids[..n], origins, decls), OriginTriples(responseId, origins, decls));
      st := RunOrigins(s, path, st, responseId, origins, decls);
      responseId := responseId + 1;
    }
    assert ids[..responseId - first] == ids;
  }

  /** Every triple run unconditionally, in order. */
  function AllCalls(ts: seq<Triple>, path: string): (calls: seq<Call>)
    ensures |calls| == |ts| && forall k :: 0 <= k < |ts| ==> calls[k] == CallOf(ts[k], path)
  {
    seq(|ts|, k requires 0 <= k < |ts| => CallOf(ts[k], path))
  }

  lemma AllCallsAppend(a: seq<Triple>, b: seq<Triple>, path: string)
    ensures AllCalls(a + b, path) == AllCalls(a, path) + AllCalls(b, path)
  {
  }

  /** The innermost loop of the fetch callback (lines 114-116). */
  method FetchedDecls(id: int, origin: string, decls: seq<TestDecl>, path: string) returns (calls: seq<Call>)
    ensures calls == AllCalls(DeclTriples(id, origin, decls), path)
  {
    calls := [];
    for k := 0 to |decls|
      invariant calls == AllCalls(DeclTriples(id, origin, decls[..k]), path)
    {
      calls := calls + [Call(origin + path, origin, id, decls[k])];
    }
  }

  /** The origin loop of the fetch callback (lines 113-117). */
  method FetchedOrigins(id: int, origins: seq<string>, decls: seq<TestDecl>, path: string) returns (calls: seq<Call>)
    ensures calls == AllCalls(OriginTriples(id, origins, decls), path)
  {
    calls := [];
    for j := 0 to |origins|
      invariant calls == AllCalls(OriginTriples(id, origins[..j], decls), path)
    {
      assert origins[..j + 1][..j] == origins[..j];
      AllCallsAppend(OriginTriples(id, origins[..j], decls), DeclTriples(id, origins[j], decls), path);
      var more := FetchedDecls(id, origins[j], decls, path);
      calls := calls + more;
    }
    assert origins[..|origins|] == origins;
  }

  /** The loops of the fetch callback (lines 111-119): every id, origin and test, unfiltered. */
  method FetchedCalls(ids: seq<int>, origins: seq<string>, decls: seq<TestDecl>, path: string) returns (calls: seq<Call>)
    ensures calls == AllCalls(AllTriples(ids, origins, decls), path)
  {
    calls := [];
    for i := 0 to |ids|
      invariant calls == AllCalls(AllTriples(ids[..i], origins, decls), path)
    {
      assert ids[..i + 1][..i] == ids[..i];
      AllCallsAppend(AllTriples(ids[..i], origins, decls), OriginTriples(ids[i], origins, decls), path);
      var more := FetchedOrigins(ids[i], origins, decls, path);
      calls := calls + more;
    }
    assert ids[..|ids|] == ids;
  }

  /**
   * `run_tests` after its settings are read. With both `first_id` and `last_id` set, the
   * ids first_id..last_id are crossed with every origin and every declared test, in that
   * nesting order, through the filter and the popup window. Otherwise the ids come from
   * the label endpoint (`fetchedIds`, what get_resp_ids.py answers) and every triple runs.
   * `pageOrigins` is the page's own list, `None` for the default of the response type.
   */
  method RunTests(decls: seq<TestDecl>, path: string, pageOrigins: Option<seq<string>>, s: Settings,
                  host: string, altHost: string, search: string, orgScheme: string, fetchedIds: seq<int>)
    returns (st: RunState)
    ensures var origins := if pageOrigins.Some? then pageOrigins.value else DefaultOrigins(s.respType, host, altHost, search, orgScheme);
      if s.firstId.Some? && s.lastId.Some? then
        st == Run(s, path, RunState([], 0), AllTriples(IdRange(s.firstId.value, s.lastId.value), origins, decls))
      else
        st == RunState(AllCalls(AllTriples(fetchedIds, origins, decls), path), 0)
  {
    var origins: seq<string>;
    if pageOrigins.None? {
      origins := TestOrigins(s.respType, host, altHost, search, orgScheme);
    } else {
      origins := pageOrigins.value;
    }
    if s.firstId.Some? && s.lastId.Some? {
      st := RunIds(s, path, s.firstId.value, s.lastId.value, origins, decls);
    } else {
      var calls := FetchedCalls(fetchedIds, origins, decls, path);
      st := RunState(calls, 0);
    }
  }

  // ---------------------------------------------------------------------------
  // What the selection guarantees
  // ---------------------------------------------------------------------------

  /** With the default settings every reached triple runs, in order, and popup_count counts the popup tests. */
  lemma {:induction false} RunDefaults(s: Settings, path: string, ts: seq<Triple>, st: RunState)
    requires s.firstPopup <= 0 && s.lastPopup == Infinity && s.runNoPopup == "yes" && s.tRespId.None?
    requires st.popupCount >= 0
    ensures Run(s, path, st, ts).calls == st.calls + AllCalls(ts, path)
    decreases |ts|
  {
    if |ts| > 0 {
      RunDefaults(s, path, ts[..|ts| - 1], st);
      RunCountMonotone(s, path, ts[..|ts| - 1], st);
      assert AllCalls(ts, path) == AllCalls(ts[..|ts| - 1], path) + [CallOf(ts[|ts| - 1], path)];
    }
  }

  /** popup_count never goes down. */
  lemma {:induction false} RunCountMonotone(s: Settings, path: string, ts: seq<Triple>, st: RunState)
    ensures Run(s, path, st, ts).popupCount >= st.popupCount
    decreases |ts|
  {
    if |ts| > 0 {
      RunCountMonotone(s, path, ts[..|ts| - 1], st);
    }
  }

  /** The number of popup triples that pass the filter. */
  function PopupsPassing(s: Settings, ts: seq<Triple>): (n: nat)
    ensures n <= |ts|
    decreases |ts|
  {
    if |ts| == 0 then 0
    else PopupsPassing(s, ts[..|ts| - 1]) + (if PassesFilter(s, ts[|ts| - 1]) && ts[|ts| - 1].decl.popup then 1 else 0)
  }

  /** popup_count advances by one per popup test that passes the filter; filtered tests do not advance it. */
  lemma {:induction false} RunCount(s: Settings, path: string, ts: seq<Triple>, st: RunState)
    ensures Run(s, path, st, ts).popupCount == st.popupCount + PopupsPassing(s, ts)
    decreases |ts|
  {
    if |ts| > 0 {
      RunCount(s, path, ts[..|ts| - 1], st);
    }
  }

  /**
   * Whether the last triple of `ts` runs, from a start count c0: it passes the filter, and
   * then a popup test runs exactly when its number (c0 plus the passing popup tests up to and
   * including it) lies in [first_popup, last_popup], a non-popup test exactly when
   * run_no_popup is 'yes'.
   */
  predicate Chosen(s: Settings, c0: int, ts: seq<Triple>) {
    |ts| > 0 &&
    var t := ts[|ts| - 1];
    PassesFilter(s, t) &&
    if t.decl.popup then InWindow(s, c0 + PopupsPassing(s, ts)) else s.runNoPopup == "yes"
  }

  /** The calls of the chosen triples, in order. */
  function SelectedCalls(s: Settings, path: string, c0: int, ts: seq<Triple>): seq<Call>
    decreases |ts|
  {
    if |ts| == 0 then []
    else SelectedCalls(s, path, c0, ts[..|ts| - 1]) + (if Chosen(s, c0, ts) then [CallOf(ts[|ts| - 1], path)] else [])
  }

  /**
   * The selection rule of run_tests for any mix of popup and non-popup tests, any filter,
   * any window and any start state: the run appends exactly the calls of the chosen triples.
   */
  lemma {:induction false} RunSelects(s: Settings, path: string, st: RunState, ts: seq<Triple>)
    ensures Run(s, path, st, ts).calls == st.calls + SelectedCalls(s, path, st.popupCount, ts)
    decreases |ts|
  {
    if |ts| > 0 {
      RunSelects(s, path, st, ts[..|ts| - 1]);
      RunCount(s, path, ts[..|ts| - 1], st);
    }
  }

  /**
   * Every call comes from a reached triple that passes the filter; a non-popup test is
   * called only when run_no_popup is 'yes'. (Which popup tests run is `RunWindow`.)
   */
  lemma {:induction false} RunCallsSound(s: Settings, path: string, ts: seq<Triple>, st: RunState, c: Call)
    requires c in Run(s, path, st, ts).calls && c !in st.calls
    ensures exists t :: t in ts && PassesFilter(s, t) && c == CallOf(t, path)
    ensures !c.decl.popup ==> s.runNoPopup == "yes"
    decreases |ts|
  {
    var init := ts[..|ts| - 1];
    if c in Run(s, path, st, init).calls {
      RunCallsSound(s, path, init, st, c);
      var t :| t in init && PassesFilter(s, t) && c == CallOf(t, path);
      assert t in ts;
    } else {
      assert ts[|ts| - 1] in ts;
    }
  }

  /** In manual-confirmation mode every call is the one requested instance. */
  lemma RunFilterExact(s: Settings, path: string, ts: seq<Triple>, c: Call)
    requires s.tRespId.Some? && c in Run(s, path, RunState([], 0), ts).calls
    ensures c.responseId == s.tRespId.value && s.tRespOrigin == Some(c.origin) && c.decl.elementRelation == s.elementRelation
  {
    RunCallsSound(s, path, ts, RunState([], 0), c);
  }

  /** The calls a window [f, l] selects from n popup triples, as positions lo = f-1 up to hi = min(l, n). */
  function WindowCalls(ts: seq<Triple>, f: int, l: int, path: string): seq<Call> {
    var lo := if f - 1 < 0 then 0 else f - 1;
    var hi := if l < |ts| then l else |ts|;
    if lo < hi then AllCalls(ts[lo..hi], path) else []
  }

  /**
   * The popup window picks a contiguous stretch: when every reached test is a popup test
   * and nothing is filtered, a run from popup_count 0 with window [f, l] calls exactly the
   * triples at positions f-1 .. l-1 (as far as they exist).
   */
  lemma {:induction false} RunWindow(s: Settings, path: string, ts: seq<Triple>)
    requires s.tRespId.None? && s.lastPopup.Finite?
    requires forall k :: 0 <= k < |ts| ==> ts[k].decl.popup
    ensures Run(s, path, RunState([], 0), ts).calls == WindowCalls(ts, s.firstPopup, s.lastPopup.n, path)
    decreases |ts|
  {
    if |ts| > 0 {
      var n := |ts| - 1;
      var init := ts[..n];
      RunWindow(s, path, init);
      RunCount(s, path, init, RunState([], 0));
      PopupsAll(s, init);
      WindowStep(ts, s.firstPopup, s.lastPopup.n, path, InWindow(s, n + 1));
    }
  }

  /** One more popup triple, at count n+1, extends the window's calls exactly when n+1 lies in it. */
  lemma WindowStep(ts: seq<Triple>, f: int, l: int, path: string, inside: bool)
    requires |ts| > 0 && inside == (|ts| >= f && |ts| <= l)
    ensures WindowCalls(ts, f, l, path) ==
      WindowCalls(ts[..|ts| - 1], f, l, path) + (if inside then [CallOf(ts[|ts| - 1], path)] else [])
  {
    var n := |ts| - 1;
    var lo := if f - 1 < 0 then 0 else f - 1;
    var hi := if l < |ts| then l else |ts|;
    var hiInit := if l < n then l else n;
    if inside {
      assert hi == n + 1 && hiInit == n;
      if lo < n {
        assert ts[..n][lo..n] == ts[lo..n];
        assert ts[lo..hi] == ts[lo..n] + [ts[n]];
        AllCallsAppend(ts[lo..n], [ts[n]], path);
      } else {
        assert lo == n;
      }
    } else {
      if lo < hiInit {
        assert hi == hiInit;
        assert ts[..n][lo..hiInit] == ts[lo..hi];
      }
    }
  }

  /** With nothing filtered and only popup tests, every triple counts. */
  lemma {:induction false} PopupsAll(s: Settings, ts: seq<Triple>)
    requires s.tRespId.None? && forall k :: 0 <= k < |ts| ==> ts[k].decl.popup
    ensures PopupsPassing(s, ts) == |ts|
    decreases |ts|
  {
    if |ts| > 0 {
      PopupsAll(s, ts[..|ts| - 1]);
    }
  }
}
