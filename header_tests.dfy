/**
 * The `HeaderTests` class of the header generator (_hp/hp/tools/response_header_generation.py,
 * lines 140-276): an object holding the value lists of one security header, whose test
 * methods grow the `responses` list by fixed combinatorial rules. Saving the list to the
 * database is not part of this model.
 */
module HeaderTestSuite {
  import opened Common
  import opened Strings
  import opened Itertools
  import opened HeaderMutations

  /** One `(name, value)` header line. */
  type Header = (string, string)

  /** One tuple `(header, label, status_code, resp_type)` of `self.responses`. */
  datatype Resp = Resp(headers: seq<Header>, testLabel: string, status: int, respType: string)

  /** What every test method passes on to `create_response`: the base response and the label. */
  datatype Emit = Emit(base: seq<Header>, testLabel: string)

  /** The tuple `create_response` appends: a non-empty base response goes after the headers. */
  function MakeResp(base: seq<Header>, header: seq<Header>, testLabel: string, status: int, respType: string): Resp {
    Resp(if |base| > 0 then header + base else header, testLabel, status, respType)
  }

  /** A response with the default status 200 and resp_type "parsing". */
  function Plain(e: Emit, header: seq<Header>): Resp {
    MakeResp(e.base, header, e.testLabel, 200, "parsing")
  }

  /** The headers of a response begin with the given ones and end with the base response. */
  lemma MakeRespShape(base: seq<Header>, header: seq<Header>, testLabel: string, status: int, respType: string)
    ensures var r := MakeResp(base, header, testLabel, status, respType);
      |r.headers| == |header| + |base| && r.headers[..|header|] == header && r.headers[|header|..] == base
      && r.testLabel == testLabel && r.status == status && r.respType == respType
  {
    var r := MakeResp(base, header, testLabel, status, respType);
    if |base| > 0 {
      assert r.headers[..|header|] == header;
    }
  }

  // ---------------------------------------------------------------------------
  // header_name_tests (lines 182-195)
  // ---------------------------------------------------------------------------

  /** One response per header name, each with the single header `(name, v)`. */
  function NamedValue(e: Emit, names: seq<string>, v: string): (r: seq<Resp>)
    ensures |r| == |names|
  {
    seq(|names|, k requires 0 <= k < |names| => Plain(e, [(names[k], v)]))
  }

  /** The responses for one valid value: the correct name, every alternative name, every mutated name. */
  function NameTestsFor(e: Emit, name: string, alts: seq<string>, mutated: seq<string>, v: string): seq<Resp> {
    [Plain(e, [(name, v)])] + NamedValue(e, alts, v) + NamedValue(e, mutated, v)
  }

  /** All responses of `header_name_tests`, for the valid values in turn. */
  function NameTestsOf(e: Emit, name: string, alts: seq<string>, mutated: seq<string>): string -> seq<Resp> {
    v => NameTestsFor(e, name, alts, mutated, v)
  }

  function NameTests(e: Emit, name: string, alts: seq<string>, mutated: seq<string>, valid: seq<string>): seq<Resp> {
    ConcatMap(valid, NameTestsOf(e, name, alts, mutated))
  }

  /** One response per valid value and header name: `1 + |alt_names| + |mutated names|` per value. */
  lemma NameTestsCount(e: Emit, name: string, alts: seq<string>, mutated: seq<string>, valid: seq<string>)
    ensures |NameTests(e, name, alts, mutated, valid)| == |valid| * (1 + |alts| + |mutated|)
  {
    ConcatMapUniform(valid, NameTestsOf(e, name, alts, mutated), 1 + |alts| + |mutated|);
  }

  /** Every response carries one valid value under the correct, an alternative or a mutated name, with status 200. */
  lemma NameTestsShape(e: Emit, name: string, alts: seq<string>, mutated: seq<string>, valid: seq<string>, r: Resp)
    requires r in NameTests(e, name, alts, mutated, valid)
    ensures exists n, v :: (n == name || n in alts || n in mutated) && v in valid && r == Plain(e, [(n, v)])
  {
    ConcatMapMember(valid, NameTestsOf(e, name, alts, mutated), r);
    var i :| 0 <= i < |valid| && r in NameTestsFor(e, name, alts, mutated, valid[i]);
    var v := valid[i];
    if r in NamedValue(e, alts, v) {
      var k :| 0 <= k < |alts| && NamedValue(e, alts, v)[k] == r;
      assert alts[k] in alts;
    } else if r in NamedValue(e, mutated, v) {
      var k :| 0 <= k < |mutated| && NamedValue(e, mutated, v)[k] == r;
      assert mutated[k] in mutated;
    }
  }

  // ---------------------------------------------------------------------------
  // parsing_tests (lines 197-216)
  // ---------------------------------------------------------------------------

  /** The status codes each valid value is sent with. */
  const StatusCodes: seq<int> := [201, 203, 204, 300, 302, 400, 403, 404, 418, 500]

  /** One response per value, each with the single header `(name, value)`. */
  function SingleValues(e: Emit, name: string, vs: seq<string>): (r: seq<Resp>)
    ensures |r| == |vs|
  {
    seq(|vs|, k requires 0 <= k < |vs| => Plain(e, [(name, vs[k])]))
  }

  /** The response for one status code: a redirect status also carries `redirect_empty`. */
  function CodeResp(e: Emit, name: string, redirect: Header, v: string, code: int): Resp {
    MakeResp(e.base, if 300 <= code < 400 then [(name, v), redirect] else [(name, v)], e.testLabel, code, "parsing")
  }

  /** The responses of the status-code sweep for one value. */
  function CodeBlock(e: Emit, name: string, redirect: Header, v: string): seq<Resp> {
    seq(|StatusCodes|, k requires 0 <= k < |StatusCodes| => CodeResp(e, name, redirect, v, StatusCodes[k]))
  }

  /** `listed` is the order in which a loop visits the results of `mutations` on `v`. */
  ghost predicate MutantsListed(v: string, listed: seq<string>, mutations: seq<Mutation>, rnd: Choices) {
    Lists(listed, Mutants(v, mutations, rnd))
  }

  /** Appending the next value and its order keeps every pair listed in order. */
  lemma ListedSnoc(valued: seq<(string, seq<string>)>, valid: seq<string>, p: (string, seq<string>), mutations: seq<Mutation>, rnd: Choices)
    requires |valued| < |valid| && p.0 == valid[|valued|] && MutantsListed(p.0, p.1, mutations, rnd)
    requires forall k :: 0 <= k < |valued| ==> valued[k].0 == valid[k] && MutantsListed(valued[k].0, valued[k].1, mutations, rnd)
    ensures forall k :: 0 <= k < |valued| + 1 ==>
      (valued + [p])[k].0 == valid[k] && MutantsListed((valued + [p])[k].0, (valued + [p])[k].1, mutations, rnd)
  {
  }

  /** The responses for one valid value paired with the order its mutated values are visited in. */
  function ParsingFor(e: Emit, name: string, redirect: Header, p: (string, seq<string>)): seq<Resp> {
    CodeBlock(e, name, redirect, p.0) + SingleValues(e, name, p.1)
  }

  /** All responses of `parsing_tests`: first the legacy and other values, then each valid value. */
  function ParsingOf(e: Emit, name: string, redirect: Header): ((string, seq<string>)) -> seq<Resp> {
    p => ParsingFor(e, name, redirect, p)
  }

  function ParsingCases(e: Emit, name: string, redirect: Header, plain: seq<string>, valued: seq<(string, seq<string>)>): seq<Resp> {
    SingleValues(e, name, plain) + ConcatMap(valued, ParsingOf(e, name, redirect))
  }

  /**
   * The sweep has one response per code, in the order of the list; the first header is the value,
   * and only the two 3xx codes add the redirect as second header.
   */
  lemma CodeBlockShape(e: Emit, name: string, redirect: Header, v: string)
    ensures |CodeBlock(e, name, redirect, v)| == 10
    ensures forall k :: 0 <= k < 10 ==>
      var r := CodeBlock(e, name, redirect, v)[k];
      r.status == StatusCodes[k] && r.headers[0] == (name, v) && r.testLabel == e.testLabel
      && (300 <= r.status < 400 <==> k == 3 || k == 4)
      && |r.headers| == |e.base| + (if 300 <= r.status < 400 then 2 else 1)
      && (300 <= r.status < 400 ==> r.headers[1] == redirect)
  {
    forall k | 0 <= k < 10
      ensures var r := CodeBlock(e, name, redirect, v)[k];
        |r.headers| == |e.base| + (if 300 <= r.status < 400 then 2 else 1)
        && r.headers[0] == (name, v)
        && (300 <= r.status < 400 ==> r.headers[1] == redirect)
    {
      var c := StatusCodes[k];
      MakeRespShape(e.base, if 300 <= c < 400 then [(name, v), redirect] else [(name, v)], e.testLabel, c, "parsing");
    }
  }

  /** Each valid value yields the 10 code responses and then one response per mutated value. */
  lemma ParsingForCount(e: Emit, name: string, redirect: Header, p: (string, seq<string>))
    ensures |ParsingFor(e, name, redirect, p)| == 10 + |p.1|
    ensures ParsingFor(e, name, redirect, p)[..10] == CodeBlock(e, name, redirect, p.0)
  {
  }

  /**
   * Every response of `parsing_tests` has status 200 or one of the listed codes, and it has the
   * redirect as second header exactly when its status is a 3xx code.
   */
  lemma ParsingTestsStatus(e: Emit, name: string, redirect: Header, plain: seq<string>, valued: seq<(string, seq<string>)>, r: Resp)
    requires r in ParsingCases(e, name, redirect, plain, valued)
    ensures r.status == 200 || r.status in StatusCodes
    ensures |r.headers| == |e.base| + (if 300 <= r.status < 400 then 2 else 1)
    ensures 300 <= r.status < 400 ==> r.headers[1] == redirect
  {
    if r in SingleValues(e, name, plain) {
      var k :| 0 <= k < |plain| && SingleValues(e, name, plain)[k] == r;
      MakeRespShape(e.base, [(name, plain[k])], e.testLabel, 200, "parsing");
    } else {
      var f := ParsingOf(e, name, redirect);
      ConcatMapMember(valued, f, r);
      var i :| 0 <= i < |valued| && r in f(valued[i]);
      var p := valued[i];
      if r in CodeBlock(e, name, redirect, p.0) {
        var k :| 0 <= k < |StatusCodes| && CodeBlock(e, name, redirect, p.0)[k] == r;
        CodeBlockShape(e, name, redirect, p.0);
      } else {
        assert r in SingleValues(e, name, p.1);
        var k :| 0 <= k < |p.1| && SingleValues(e, name, p.1)[k] == r;
        MakeRespShape(e.base, [(name, p.1[k])], e.testLabel, 200, "parsing");
      }
    }
  }

  // ---------------------------------------------------------------------------
  // mult_headers_tests (lines 218-276)
  // ---------------------------------------------------------------------------

  /** All values of an order under one header name, in separate headers. */
  function HeadersOf(name: string, vs: seq<string>): (r: seq<Header>)
    ensures |r| == |vs|
  {
    seq(|vs|, k requires 0 <= k < |vs| => (name, vs[k]))
  }

  /** Basic1: the order joined with ", ", "; " and " ", in that order. */
  function JoinedFor(e: Emit, name: string, o: seq<string>): seq<Resp> {
    [Plain(e, [(name, Join(", ", o))]), Plain(e, [(name, Join("; ", o))]), Plain(e, [(name, Join(" ", o))])]
  }

  function JoinedOf(e: Emit, name: string): seq<string> -> seq<Resp> {
    o => JoinedFor(e, name, o)
  }

  function Joined(e: Emit, name: string, orders: seq<seq<string>>): seq<Resp> {
    ConcatMap(orders, JoinedOf(e, name))
  }

  /** Basic2: each order as separate headers. */
  function Separate(e: Emit, name: string, orders: seq<seq<string>>): (r: seq<Resp>)
    ensures |r| == |orders|
  {
    seq(|orders|, i requires 0 <= i < |orders| => Plain(e, HeadersOf(name, orders[i])))
  }

  /** Basic3: first value against the rest, and the rest against the last value, for orders of 3 or more. */
  function SplitFor(e: Emit, name: string, o: seq<string>): seq<Resp> {
    if |o| >= 3 then
      [Plain(e, [(name, o[0]), (name, Join(", ", o[1..]))]),
       Plain(e, [(name, Join(", ", o[..|o| - 1])), (name, o[|o| - 1])])]
    else []
  }

  function SplitOf(e: Emit, name: string): seq<string> -> seq<Resp> {
    o => SplitFor(e, name, o)
  }

  function Splits(e: Emit, name: string, orders: seq<seq<string>>): seq<Resp> {
    ConcatMap(orders, SplitOf(e, name))
  }

  /** Basic4: the value twice as two headers, twice in one header, and with its lower and upper form. */
  function DuplicatesFor(e: Emit, name: string, v: string): seq<Resp> {
    [Plain(e, [(name, v), (name, v)]), Plain(e, [(name, v + ", " + v)]),
     Plain(e, [(name, v), (name, Lower(v))]), Plain(e, [(name, v), (name, Upper(v))])]
  }

  function DuplicatesOf(e: Emit, name: string): string -> seq<Resp> {
    v => DuplicatesFor(e, name, v)
  }

  function Duplicates(e: Emit, name: string, valid: seq<string>): seq<Resp> {
    ConcatMap(valid, DuplicatesOf(e, name))
  }

  /** The headers the inner `enumerate` loop builds: `h1` for the first value, `h2` for the others. */
  function Mixed(h1: string, h2: string, o: seq<string>): (r: seq<Header>)
    ensures |r| == |o|
  {
    seq(|o|, i requires 0 <= i < |o| => if i == 0 then (h1, o[i]) else (h2, o[i]))
  }

  /** The two name pairs of Advanced1: the name then its upper form, and the other way round. */
  function NamePairs(name: string): seq<(string, string)> {
    [(name, Upper(name)), (Upper(name), name)]
  }

  /** Advanced1: the order with the first header named differently from the others. */
  function PairOf(e: Emit, o: seq<string>): ((string, string)) -> seq<Resp> {
    (pr: (string, string)) => [Plain(e, Mixed(pr.0, pr.1, o))]
  }

  function MixedFor(e: Emit, name: string, o: seq<string>): seq<Resp> {
    ConcatMap(NamePairs(name), PairOf(e, o))
  }

  function MixedOf(e: Emit, name: string): seq<string> -> seq<Resp> {
    o => MixedFor(e, name, o)
  }

  function MixedNames(e: Emit, name: string, orders: seq<seq<string>>): seq<Resp> {
    ConcatMap(orders, MixedOf(e, name))
  }

  /** Advanced2: a valid and an invalid value, in both orders, as two headers and as one. */
  function InvalidFor(e: Emit, name: string, v: string, w: string): seq<Resp> {
    [Plain(e, [(name, v), (name, w)]), Plain(e, [(name, w), (name, v)]),
     Plain(e, [(name, v + ", " + w)]), Plain(e, [(name, w + ", " + v)])]
  }

  function InvalidOf(e: Emit, name: string, v: string): string -> seq<Resp> {
    w => InvalidFor(e, name, v, w)
  }

  function InvalidsFor(e: Emit, name: string, invalid: seq<string>, v: string): seq<Resp> {
    ConcatMap(invalid, InvalidOf(e, name, v))
  }

  function InvalidsOf(e: Emit, name: string, invalid: seq<string>): string -> seq<Resp> {
    v => InvalidsFor(e, name, invalid, v)
  }

  function Invalids(e: Emit, name: string, valid: seq<string>, invalid: seq<string>): seq<Resp> {
    ConcatMap(valid, InvalidsOf(e, name, invalid))
  }

  /** `xs[:2]` */
  function TakeTwo(xs: seq<string>): (r: seq<string>)
    ensures |r| == if |xs| < 2 then |xs| else 2
    ensures forall k :: 0 <= k < |r| ==> r[k] == xs[k]
  {
    if |xs| < 2 then xs else xs[..2]
  }

  /** All responses of `mult_headers_tests`, phase after phase. */
  function MultTests(e: Emit, name: string, valid: seq<string>, other: seq<string>): seq<Resp> {
    var orders := Permutations(valid);
    Joined(e, name, orders) + Separate(e, name, orders) + Splits(e, name, orders)
    + Duplicates(e, name, valid) + MixedNames(e, name, orders) + Invalids(e, name, valid, TakeTwo(other))
  }

  /** Response `3i + j` of Basic1 joins order `i` with the `j`-th separator. */
  lemma JoinedAt(e: Emit, name: string, orders: seq<seq<string>>, i: nat, j: nat)
    requires i < |orders| && j < 3
    ensures |Joined(e, name, orders)| == 3 * |orders|
    ensures Joined(e, name, orders)[3 * i + j] == Plain(e, [(name, Join([", ", "; ", " "][j], orders[i]))])
  {
    var f := JoinedOf(e, name);
    ConcatMapUniform(orders, f, 3);
    ConcatMapAt(orders, f, 3, i, j);
    assert 3 * i + j == i * 3 + j;
  }

  /** Orders of fewer than 3 values yield no split responses; every longer one yields two. */
  lemma {:induction false} SplitsCount(e: Emit, name: string, orders: seq<seq<string>>, n: nat)
    requires forall i :: 0 <= i < |orders| ==> |orders[i]| == n
    ensures |Splits(e, name, orders)| == if n >= 3 then 2 * |orders| else 0
  {
    ConcatMapUniform(orders, SplitOf(e, name), if n >= 3 then 2 else 0);
  }

  /** All orders have as many values as the valid list. */
  lemma OrdersLength(valid: seq<string>)
    ensures forall i :: 0 <= i < |Permutations(valid)| ==> |Permutations(valid)[i]| == |valid|
  {
    forall i | 0 <= i < |Permutations(valid)| ensures |Permutations(valid)[i]| == |valid| {
      PermutationsArePermutations(valid, Permutations(valid)[i]);
    }
  }

  /** Every value pair of Advanced2 takes its invalid value from the first two other values. */
  lemma InvalidsShape(e: Emit, name: string, valid: seq<string>, invalid: seq<string>, r: Resp)
    requires r in Invalids(e, name, valid, invalid)
    ensures exists v, w :: v in valid && w in invalid && r in InvalidFor(e, name, v, w)
  {
    ConcatMapMember(valid, InvalidsOf(e, name, invalid), r);
    var i :| 0 <= i < |valid| && r in InvalidsFor(e, name, invalid, valid[i]);
    ConcatMapMember(invalid, InvalidOf(e, name, valid[i]), r);
    var j :| 0 <= j < |invalid| && r in InvalidFor(e, name, valid[i], invalid[j]);
    assert valid[i] in valid && invalid[j] in invalid;
  }

  /** Four responses per (valid, invalid) pair: `4 |valid| |invalid|`. */
  lemma InvalidsCount(e: Emit, name: string, valid: seq<string>, invalid: seq<string>)
    ensures |Invalids(e, name, valid, invalid)| == |valid| * (4 * |invalid|)
  {
    var f := InvalidsOf(e, name, invalid);
    forall i | 0 <= i < |valid| ensures |f(valid[i])| == 4 * |invalid| {
      ConcatMapUniform(invalid, InvalidOf(e, name, valid[i]), 4);
    }
    ConcatMapUniform(valid, f, 4 * |invalid|);
  }

  /**
   * With `n` valid values and `m` other values, `mult_headers_tests` adds `6 n!` responses for
   * the orders, `2 n!` more when `n >= 3`, and `4 n + 4 n min(m, 2)` for the single values.
   */
  lemma MultTestsCount(e: Emit, name: string, valid: seq<string>, other: seq<string>)
    ensures var n := |valid|; var m := if |other| < 2 then |other| else 2;
      |MultTests(e, name, valid, other)|
      == 6 * Fact(n) + (if n >= 3 then 2 * Fact(n) else 0) + 4 * n + n * (4 * m)
  {
    var orders := Permutations(valid);
    PermutationsCount(valid);
    OrdersLength(valid);
    ConcatMapUniform(orders, JoinedOf(e, name), 3);
    SplitsCount(e, name, orders, |valid|);
    ConcatMapUniform(valid, DuplicatesOf(e, name), 4);
    forall i | 0 <= i < |orders| ensures |MixedOf(e, name)(orders[i])| == 2 {
      MixedForCount(e, name, orders[i]);
    }
    ConcatMapUniform(orders, MixedOf(e, name), 2);
    InvalidsCount(e, name, valid, TakeTwo(other));
  }

  /** Two responses per order in Advanced1, one per name pair. */
  lemma MixedForCount(e: Emit, name: string, o: seq<string>)
    ensures |MixedFor(e, name, o)| == 2
  {
    ConcatMapUniform(NamePairs(name), PairOf(e, o), 1);
  }

  /** In Advanced1 the first header takes one name of the pair and every other header the other. */
  lemma MixedShape(h1: string, h2: string, o: seq<string>)
    requires |o| > 0
    ensures Mixed(h1, h2, o)[0] == (h1, o[0])
    ensures forall i :: 0 < i < |o| ==> Mixed(h1, h2, o)[i] == (h2, o[i])
  {
  }

  // ---------------------------------------------------------------------------
  // The class
  // ---------------------------------------------------------------------------

  class HeaderTests {
    const testLabel: string
    const headerName: string
    const altNames: seq<string>
    const blockValues: seq<string>
    const allowValues: seq<string>
    const partialValues: seq<string>
    const legacyValues: seq<string>
    const otherValues: seq<string>
    /** `base_resp`; `None` and `[]` behave alike, so `None` is the empty list. */
    const baseResp: seq<Header>
    /** The module-level `redirect_empty` header, built from the configured host. */
    const redirectEmpty: Header
    /** The choices of the seeded generator behind `randomize_casing`. */
    const rnd: Choices
    var responses: seq<Resp>

    constructor(testLabel: string, headerName: string, altNames: seq<string>, blockValues: seq<string>,
                allowValues: seq<string>, partialValues: seq<string>, legacyValues: seq<string>,
                otherValues: seq<string>, baseResp: seq<Header>, redirectEmpty: Header, rnd: Choices)
      ensures this.testLabel == testLabel && this.headerName == headerName && this.altNames == altNames
      ensures this.blockValues == blockValues && this.allowValues == allowValues
      ensures this.partialValues == partialValues && this.legacyValues == legacyValues
      ensures this.otherValues == otherValues && this.baseResp == baseResp
      ensures this.redirectEmpty == redirectEmpty && this.rnd == rnd
      ensures responses == []
    {
      this.testLabel := testLabel;
      this.headerName := headerName;
      this.altNames := altNames;
      this.blockValues := blockValues;
      this.allowValues := allowValues;
      this.partialValues := partialValues;
      this.legacyValues := legacyValues;
      this.otherValues := otherValues;
      this.baseResp := baseResp;
      this.redirectEmpty := redirectEmpty;
      this.rnd := rnd;
      responses := [];
    }

    function Out(): Emit {
      Emit(baseResp, testLabel)
    }

    /** The block, allow and partial values, the groups the tests iterate over one after the other. */
    function ValidValues(): seq<string> {
      blockValues + allowValues + partialValues
    }

    /** `create_response`: appends one tuple, the base response after the given headers. */
    method CreateResponse(header: seq<Header>, testLabel: string, statusCode: int := 200, respType: string := "parsing")
      modifies this
      ensures responses == old(responses) + [MakeResp(baseResp, header, testLabel, statusCode, respType)]
    {
      var h := header;
      if |baseResp| > 0 {
        h := h + baseResp;
      }
      responses := responses + [Resp(h, testLabel, statusCode, respType)];
    }

    /** One response per header name, the same value under each. */
    method EmitNames(names: seq<string>, v: string)
      modifies this
      ensures responses == old(responses) + NamedValue(Out(), names, v)
    {
      ghost var all := NamedValue(Out(), names, v);
      var k := 0;
      while k < |names|
        invariant 0 <= k <= |names|
        invariant responses == old(responses) + all[..k]
      {
        CreateResponse([(names[k], v)], testLabel);
        PrefixExtend(old(responses), all, k);
        k := k + 1;
      }
    }

    /** One response per value, each under `name`. */
    method EmitValues(name: string, vs: seq<string>)
      modifies this
      ensures responses == old(responses) + SingleValues(Out(), name, vs)
    {
      ghost var all := SingleValues(Out(), name, vs);
      var k := 0;
      while k < |vs|
        invariant 0 <= k <= |vs|
        invariant responses == old(responses) + all[..k]
      {
        CreateResponse([(name, vs[k])], testLabel);
        PrefixExtend(old(responses), all, k);
        k := k + 1;
      }
    }

    /** The responses of `header_name_tests` for one value. */
    method NameValueTests(v: string, names: seq<string>)
      modifies this
      ensures responses == old(responses) + NameTestsFor(Out(), headerName, altNames, names, v)
    {
      ghost var first := [Plain(Out(), [(headerName, v)])];
      ghost var alts := NamedValue(Out(), altNames, v);
      ghost var mutated := NamedValue(Out(), names, v);
      // Original header name
      CreateResponse([(headerName, v)], testLabel);
      // Alt header names
      EmitNames(altNames, v);
      AppendAssoc(old(responses), first, alts);
      // Mutated header names
      EmitNames(names, v);
      AppendAssoc(old(responses), first + alts, mutated);
    }

    /**
     * `header_name_tests`. The set of mutated names is the same for every value; `names`
     * is the order its loop visits it in.
     */
    method HeaderNameTests() returns (names: seq<string>)
      modifies this
      ensures Lists(names, Mutants(headerName, GeneralMutations, rnd)) && |names| == |Mutants(headerName, GeneralMutations, rnd)|
      ensures responses == old(responses) + NameTests(Out(), headerName, altNames, names, ValidValues())
    {
      var mutated := MutateHeaderName(headerName, rnd);
      names := ListSet(mutated);
      ValuesNameTests(ValidValues(), names);
    }

    /** The loop of `header_name_tests` over the valid values. */
    method ValuesNameTests(valid: seq<string>, names: seq<string>)
      modifies this
      ensures responses == old(responses) + NameTests(Out(), headerName, altNames, names, valid)
    {
      ghost var f := NameTestsOf(Out(), headerName, altNames, names);
      var i := 0;
      while i < |valid|
        invariant 0 <= i <= |valid|
        invariant responses == old(responses) + ConcatMap(valid[..i], f)
      {
        NameValueTests(valid[i], names);
        ConcatMapExtend(old(responses), valid, f, i);
        i := i + 1;
      }
      assert valid[..i] == valid;
    }

    /** The status-code sweep for one value; 3xx codes also send `redirect_empty`. */
    method StatusCodeTests(v: string)
      modifies this
      ensures responses == old(responses) + CodeBlock(Out(), headerName, redirectEmpty, v)
    {
      ghost var all := CodeBlock(Out(), headerName, redirectEmpty, v);
      var codes := StatusCodes;
      var k := 0;
      while k < |codes|
        invariant 0 <= k <= |codes|
        invariant responses == old(responses) + all[..k]
      {
        var code := codes[k];
        if 300 <= code < 400 {
          CreateResponse([(headerName, v), redirectEmpty], testLabel, code);
        } else {
          CreateResponse([(headerName, v)], testLabel, code);
        }
        PrefixExtend(old(responses), all, k);
        k := k + 1;
      }
    }

    /** The responses of `parsing_tests` for one valid value, and the order its mutated values are visited in. */
    method ValueParsingTests(v: string) returns (listed: seq<string>)
      modifies this
      ensures MutantsListed(v, listed, GeneralMutations, rnd)
      ensures responses == old(responses) + ParsingFor(Out(), headerName, redirectEmpty, (v, listed))
    {
      // Other status codes
      StatusCodeTests(v);
      // Mutated header values
      var mutated := MutateHeaderValue(v, GeneralMutations, rnd);
      listed := ListSet(mutated);
      EmitValues(headerName, listed);
      AppendAssoc(old(responses), CodeBlock(Out(), headerName, redirectEmpty, v), SingleValues(Out(), headerName, listed));
    }

    /**
     * `parsing_tests`. `valued` pairs each valid value with the order the loop visits
     * its mutated values in.
     */
    method ParsingTests() returns (valued: seq<(string, seq<string>)>)
      modifies this
      ensures |valued| == |ValidValues()|
      ensures forall k :: 0 <= k < |valued| ==> valued[k].0 == ValidValues()[k] && MutantsListed(valued[k].0, valued[k].1, GeneralMutations, rnd)
      ensures responses == old(responses)
        + ParsingCases(Out(), headerName, redirectEmpty, legacyValues + otherValues, valued)
    {
      // Legacy and other values
      EmitValues(headerName, legacyValues + otherValues);
      ghost var r0 := old(responses) + SingleValues(Out(), headerName, legacyValues + otherValues);
      ghost var f := ParsingOf(Out(), headerName, redirectEmpty);
      var valid := ValidValues();
      valued := [];
      var i := 0;
      while i < |valid|
        invariant 0 <= i <= |valid| && |valued| == i
        invariant forall k :: 0 <= k < i ==> valued[k].0 == valid[k] && MutantsListed(valued[k].0, valued[k].1, GeneralMutations, rnd)
        invariant responses == r0 + ConcatMap(valued, f)
      {
        var listed := ValueParsingTests(valid[i]);
        ConcatMapSnoc(r0, valued, (valid[i], listed), f);
        ListedSnoc(valued, valid, (valid[i], listed), GeneralMutations, rnd);
        valued := valued + [(valid[i], listed)];
        i := i + 1;
      }
      AppendAssoc(old(responses), SingleValues(Out(), headerName, legacyValues + otherValues), ConcatMap(valued, f));
    }

    /** Basic1 for one order. */
    method JoinedOrderTests(order: seq<string>)
      modifies this
      ensures responses == old(responses) + JoinedFor(Out(), headerName, order)
    {
      CreateResponse([(headerName, Join(", ", order))], testLabel);
      CreateResponse([(headerName, Join("; ", order))], testLabel);
      CreateResponse([(headerName, Join(" ", order))], testLabel);
    }

    /** Basic1 */
    method JoinedTests(orders: seq<seq<string>>)
      modifies this
      ensures responses == old(responses) + Joined(Out(), headerName, orders)
    {
      ghost var f := JoinedOf(Out(), headerName);
      var i := 0;
      while i < |orders|
        invariant 0 <= i <= |orders|
        invariant responses == old(responses) + ConcatMap(orders[..i], f)
      {
        JoinedOrderTests(orders[i]);
        ConcatMapExtend(old(responses), orders, f, i);
        i := i + 1;
      }
      assert orders[..i] == orders;
    }

    /** Basic2 */
    method SeparateTests(orders: seq<seq<string>>)
      modifies this
      ensures responses == old(responses) + Separate(Out(), headerName, orders)
    {
      ghost var all := Separate(Out(), headerName, orders);
      var i := 0;
      while i < |orders|
        invariant 0 <= i <= |orders|
        invariant responses == old(responses) + all[..i]
      {
        var headers := HeadersOf(headerName, orders[i]);
        CreateResponse(headers, testLabel);
        PrefixExtend(old(responses), all, i);
        i := i + 1;
      }
    }

    /** Basic3 for one order. */
    method SplitOrderTests(order: seq<string>)
      modifies this
      ensures responses == old(responses) + SplitFor(Out(), headerName, order)
    {
      if |order| >= 3 {
        var first, rest1 := order[0], Join(", ", order[1..]);
        var rest2, last := Join(", ", order[..|order| - 1]), order[|order| - 1];
        CreateResponse([(headerName, first), (headerName, rest1)], testLabel);
        CreateResponse([(headerName, rest2), (headerName, last)], testLabel);
      }
    }

    /** Basic3 */
    method SplitTests(orders: seq<seq<string>>)
      modifies this
      ensures responses == old(responses) + Splits(Out(), headerName, orders)
    {
      ghost var f := SplitOf(Out(), headerName);
      var i := 0;
      while i < |orders|
        invariant 0 <= i <= |orders|
        invariant responses == old(responses) + ConcatMap(orders[..i], f)
      {
        SplitOrderTests(orders[i]);
        ConcatMapExtend(old(responses), orders, f, i);
        i := i + 1;
      }
      assert orders[..i] == orders;
    }

    /** Basic4 for one value. */
    method DuplicateValueTests(value: string)
      modifies this
      ensures responses == old(responses) + DuplicatesFor(Out(), headerName, value)
    {
      CreateResponse([(headerName, value), (headerName, value)], testLabel);
      CreateResponse([(headerName, value + ", " + value)], testLabel);
      CreateResponse([(headerName, value), (headerName, Lower(value))], testLabel);
      CreateResponse([(headerName, value), (headerName, Upper(value))], testLabel);
    }

    /** Basic4 */
    method DuplicateTests(valid: seq<string>)
      modifies this
      ensures responses == old(responses) + Duplicates(Out(), headerName, valid)
    {
      ghost var f := DuplicatesOf(Out(), headerName);
      var i := 0;
      while i < |valid|
        invariant 0 <= i <= |valid|
        invariant responses == old(responses) + ConcatMap(valid[..i], f)
      {
        DuplicateValueTests(valid[i]);
        ConcatMapExtend(old(responses), valid, f, i);
        i := i + 1;
      }
      assert valid[..i] == valid;
    }

    /** The inner `enumerate` loop of Advanced1. */
    static method MixedHeaders(header1: string, header2: string, order: seq<string>) returns (headers: seq<Header>)
      ensures headers == Mixed(header1, header2, order)
    {
      ghost var all := Mixed(header1, header2, order);
      headers := [];
      var i := 0;
      while i < |order|
        invariant 0 <= i <= |order|
        invariant headers == all[..i]
      {
        if i == 0 {
          headers := headers + [(header1, order[i])];
        } else {
          headers := headers + [(header2, order[i])];
        }
        PrefixExtend([], all, i);
        i := i + 1;
      }
    }

    /** Advanced1 for one order: both name pairs. */
    method MixedOrderTests(order: seq<string>)
      modifies this
      ensures responses == old(responses) + MixedFor(Out(), headerName, order)
    {
      ghost var f := PairOf(Out(), order);
      var pairs := NamePairs(headerName);
      var j := 0;
      while j < |pairs|
        invariant 0 <= j <= |pairs|
        invariant responses == old(responses) + ConcatMap(pairs[..j], f)
      {
        var headers := MixedHeaders(pairs[j].0, pairs[j].1, order);
        CreateResponse(headers, testLabel);
        ConcatMapExtend(old(responses), pairs, f, j);
        j := j + 1;
      }
      assert pairs[..j] == pairs;
    }

    /** Advanced1 */
    method MixedNameTests(orders: seq<seq<string>>)
      modifies this
      ensures responses == old(responses) + MixedNames(Out(), headerName, orders)
    {
      ghost var f := MixedOf(Out(), headerName);
      var i := 0;
      while i < |orders|
        invariant 0 <= i <= |orders|
        invariant responses == old(responses) + ConcatMap(orders[..i], f)
      {
        MixedOrderTests(orders[i]);
        ConcatMapExtend(old(responses), orders, f, i);
        i := i + 1;
      }
      assert orders[..i] == orders;
    }

    /** Advanced2 for one (valid, invalid) pair. */
    method InvalidPairTests(validValue: string, invalidValue: string)
      modifies this
      ensures responses == old(responses) + InvalidFor(Out(), headerName, validValue, invalidValue)
    {
      CreateResponse([(headerName, validValue), (headerName, invalidValue)], testLabel);
      CreateResponse([(headerName, invalidValue), (headerName, validValue)], testLabel);
      CreateResponse([(headerName, validValue + ", " + invalidValue)], testLabel);
      CreateResponse([(headerName, invalidValue + ", " + validValue)], testLabel);
    }

    /** Advanced2 for one valid value. */
    method InvalidValueTests(validValue: string, invalid: seq<string>)
      modifies this
      ensures responses == old(responses) + InvalidsFor(Out(), headerName, invalid, validValue)
    {
      ghost var f := InvalidOf(Out(), headerName, validValue);
      var j := 0;
      while j < |invalid|
        invariant 0 <= j <= |invalid|
        invariant responses == old(responses) + ConcatMap(invalid[..j], f)
      {
        InvalidPairTests(validValue, invalid[j]);
        ConcatMapExtend(old(responses), invalid, f, j);
        j := j + 1;
      }
      assert invalid[..j] == invalid;
    }

    /** Advanced2: only the first two other values serve as invalid values. */
    method InvalidTests(valid: seq<string>)
      modifies this
      ensures responses == old(responses) + Invalids(Out(), headerName, valid, TakeTwo(otherValues))
    {
      var invalid := TakeTwo(otherValues);
      ghost var f := InvalidsOf(Out(), headerName, invalid);
      var i := 0;
      while i < |valid|
        invariant 0 <= i <= |valid|
        invariant responses == old(responses) + ConcatMap(valid[..i], f)
      {
        InvalidValueTests(valid[i], invalid);
        ConcatMapExtend(old(responses), valid, f, i);
        i := i + 1;
      }
      assert valid[..i] == valid;
    }

    /** `mult_headers_tests` */
    method MultHeadersTests()
      modifies this
      ensures responses == old(responses) + MultTests(Out(), headerName, ValidValues(), otherValues)
    {
      var allValidValues := ValidValues();
      var allOrders := Permutations(allValidValues);
      ghost var e, r0 := Out(), old(responses);
      JoinedTests(allOrders);
      ghost var done := Joined(e, headerName, allOrders);
      SeparateTests(allOrders);
      AppendAssoc(r0, done, Separate(e, headerName, allOrders));
      done := done + Separate(e, headerName, allOrders);
      SplitTests(allOrders);
      AppendAssoc(r0, done, Splits(e, headerName, allOrders));
      done := done + Splits(e, headerName, allOrders);
      DuplicateTests(allValidValues);
      AppendAssoc(r0, done, Duplicates(e, headerName, allValidValues));
      done := done + Duplicates(e, headerName, allValidValues);
      MixedNameTests(allOrders);
      AppendAssoc(r0, done, MixedNames(e, headerName, allOrders));
      done := done + MixedNames(e, headerName, allOrders);
      InvalidTests(allValidValues);
      AppendAssoc(r0, done, Invalids(e, headerName, allValidValues, TakeTwo(otherValues)));
    }

    /** `create_all_tests` up to the save: the three test methods in turn. */
    method CreateAllTests() returns (names: seq<string>, valued: seq<(string, seq<string>)>)
      modifies this
      ensures Lists(names, Mutants(headerName, GeneralMutations, rnd))
      ensures |valued| == |ValidValues()|
      ensures forall k :: 0 <= k < |valued| ==> valued[k].0 == ValidValues()[k] && MutantsListed(valued[k].0, valued[k].1, GeneralMutations, rnd)
      ensures responses == old(responses)
        + NameTests(Out(), headerName, altNames, names, ValidValues())
        + ParsingCases(Out(), headerName, redirectEmpty, legacyValues + otherValues, valued)
        + MultTests(Out(), headerName, ValidValues(), otherValues)
    {
      names := HeaderNameTests();
      valued := ParsingTests();
      MultHeadersTests();
    }
  }
}
