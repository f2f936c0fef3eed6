/**
 * The `HeaderTestsMultHeader` class of the header generator
 * (_hp/hp/tools/response_header_generation.py, lines 288-327): several headers sent together,
 * their names mutated and ordered in every way, each response cycling through the value
 * lists. It inherits `create_response` from `HeaderTests`; saving is not part of this model.
 */
module MultHeaderSuite {
  import opened Common
  import opened Itertools
  import opened HeaderMutations
  import opened HeaderTestSuite

  /** The dict `values` from header name to value list, in insertion order. */
  type Values = seq<(string, seq<string>)>

  /** A dict holds each key once. */
  predicate DistinctKeys(values: Values) {
    forall i, j :: 0 <= i < j < |values| ==> values[i].0 != values[j].0
  }

  /** `values[key]`, or `None` where the lookup raises `KeyError`. */
  function Lookup(values: Values, key: string): (r: Option<seq<string>>)
    ensures r.None? <==> forall i :: 0 <= i < |values| ==> values[i].0 != key
    ensures r.Some? ==> exists i :: 0 <= i < |values| && values[i] == (key, r.value)
    decreases |values|
  {
    if |values| == 0 then None
    else if values[0].0 == key then Some(values[0].1)
    else
      var r := Lookup(values[1..], key);
      assert forall i :: 1 <= i < |values| ==> values[i] == values[1..][i - 1];
      r
  }

  /** `len(max(values.values(), key=len, default=0))` for a non-empty dict: the longest list's length. */
  function MaxLen(values: Values): (n: nat)
    ensures forall i :: 0 <= i < |values| ==> |values[i].1| <= n
    ensures |values| > 0 ==> exists i :: 0 <= i < |values| && |values[i].1| == n
    ensures |values| == 0 ==> n == 0
    decreases |values|
  {
    if |values| == 0 then 0
    else
      var rest := MaxLen(values[1..]);
      assert forall i :: 1 <= i < |values| ==> values[i] == values[1..][i - 1];
      if |values[0].1| >= rest then |values[0].1| else rest
  }

  /** The list of `org` can be cycled through: it exists and is not empty. */
  predicate Cyclable(values: Values, org: string) {
    Lookup(values, org).Some? && |Lookup(values, org).value| > 0
  }

  /**
   * The exception the first response raises: `len(0)` on an empty dict (`TypeError`),
   * `values[org]` on a missing name (`KeyError`), `i % 0` on an empty list (`ZeroDivisionError`).
   */
  datatype ValueError = NoValues | MissingKey(name: string) | ZeroLength(name: string)

  /** The exception raised on the list of `org`: missing (`KeyError`), else empty (`ZeroDivisionError`). */
  function ErrorFor(values: Values, org: string): ValueError {
    if Lookup(values, org).None? then MissingKey(org) else ZeroLength(org)
  }

  /** The first header name, in order, whose values cannot be cycled through. */
  function FirstBadName(names: seq<string>, values: Values): (r: Option<ValueError>)
    ensures r.None? <==> forall k :: 0 <= k < |names| ==> Cyclable(values, names[k])
    decreases |names|
  {
    if |names| == 0 then None
    else if !Cyclable(values, names[0]) then Some(ErrorFor(values, names[0]))
    else
      var r := FirstBadName(names[1..], values);
      assert forall k :: 1 <= k < |names| ==> names[k] == names[1..][k - 1];
      r
  }

  /** `names[k]` is the first name that cannot be cycled through, and `err` is what it raises. */
  predicate FirstBadAt(names: seq<string>, values: Values, k: nat, err: ValueError) {
    k < |names| && (forall j :: 0 <= j < k ==> Cyclable(values, names[j]))
    && !Cyclable(values, names[k]) && err == ErrorFor(values, names[k])
  }

  /** The error names the first header whose list is missing or empty. */
  lemma {:induction false} FirstBadNameIsFirst(names: seq<string>, values: Values)
    requires FirstBadName(names, values).Some?
    ensures exists k: nat :: FirstBadAt(names, values, k, FirstBadName(names, values).value)
    decreases |names|
  {
    if Cyclable(values, names[0]) {
      var tail := names[1..];
      FirstBadNameIsFirst(tail, values);
      var k: nat :| FirstBadAt(tail, values, k, FirstBadName(tail, values).value);
      forall j | 0 <= j < k + 1 ensures Cyclable(values, names[j]) {
        if j > 0 {
          assert names[j] == tail[j - 1];
        }
      }
      assert names[k + 1] == tail[k];
      assert FirstBadAt(names, values, k + 1, FirstBadName(names, values).value);
    } else {
      assert FirstBadAt(names, values, 0, FirstBadName(names, values).value);
    }
  }

  /**
   * What `create_all_tests` raises, if anything. An empty dict fails on `len(0)`; when every
   * list is empty no value is looked up; otherwise the first response looks up every header
   * name in order (see `FirstOrderIsIdentity`).
   */
  function CreateError(names: seq<string>, values: Values): Option<ValueError> {
    if |values| == 0 then Some(NoValues)
    else if MaxLen(values) == 0 then None
    else FirstBadName(names, values)
  }

  // ---------------------------------------------------------------------------
  // mutated_headers and mutated_order
  // ---------------------------------------------------------------------------

  /** `[(org_header, header) for header in ...]`, over the order the set is visited in. */
  function MutatedPairs(org: string, listed: seq<string>): (r: seq<Header>)
    ensures |r| == |listed|
  {
    seq(|listed|, t requires 0 <= t < |listed| => (org, listed[t]))
  }

  /** `mutated_headers`: the mutated names of each header, paired with the original name. */
  function MutatedHeaders(names: seq<string>, listings: seq<seq<string>>): (r: seq<seq<Header>>)
    requires |names| == |listings|
    ensures |r| == |names|
  {
    seq(|names|, k requires 0 <= k < |names| => MutatedPairs(names[k], listings[k]))
  }

  /** `(mutated_headers[n] for n in list_order)` */
  function Pick(mh: seq<seq<Header>>, lo: seq<nat>): (r: seq<seq<Header>>)
    ensures |r| == |lo|
  {
    seq(|lo|, j requires 0 <= j < |lo| => if lo[j] < |mh| then mh[lo[j]] else [])
  }

  function ProductOf(mh: seq<seq<Header>>): seq<nat> -> seq<seq<Header>> {
    lo => Product(Pick(mh, lo))
  }

  /** `mutated_order`: for each order of the headers, every choice of one mutated name per header. */
  function MutatedOrder(mh: seq<seq<Header>>): seq<seq<Header>> {
    ConcatMap(Permutations(Range(|mh|)), ProductOf(mh))
  }

  /**
   * Every tuple of `mutated_order` has one header per header name, in the order of a
   * permutation, each under one of that name's mutated forms.
   */
  lemma MutatedOrderShape(names: seq<string>, listings: seq<seq<string>>, hs: seq<Header>)
    requires |names| == |listings| && hs in MutatedOrder(MutatedHeaders(names, listings))
    ensures |hs| == |names|
    ensures exists lo :: (lo in Permutations(Range(|names|)) && |lo| == |names|
      && forall k :: 0 <= k < |hs| ==> lo[k] < |names| && hs[k].0 == names[lo[k]] && hs[k].1 in listings[lo[k]])
  {
    var mh := MutatedHeaders(names, listings);
    var perms := Permutations(Range(|mh|));
    ConcatMapMember(perms, ProductOf(mh), hs);
    var i :| 0 <= i < |perms| && hs in ProductOf(mh)(perms[i]);
    var lo := perms[i];
    IndexOrderInRange(|mh|, lo);
    var lists := Pick(mh, lo);
    ProductShape(lists, hs);
    forall k | 0 <= k < |hs| ensures lo[k] < |names| && hs[k].0 == names[lo[k]] && hs[k].1 in listings[lo[k]] {
      assert hs[k] in mh[lo[k]];
      var t :| 0 <= t < |listings[lo[k]]| && mh[lo[k]][t] == hs[k];
    }
  }

  /**
   * When every header has a mutated form, the first tuple of `mutated_order` is the identity
   * order with the first form of each name, so it visits the header names in order.
   */
  lemma FirstOrderIsIdentity(names: seq<string>, listings: seq<seq<string>>)
    requires |names| == |listings| && forall k :: 0 <= k < |listings| ==> |listings[k]| > 0
    ensures var mo := MutatedOrder(MutatedHeaders(names, listings));
      |mo| > 0 && |mo[0]| == |names| && forall k :: 0 <= k < |names| ==> mo[0][k] == (names[k], listings[k][0])
  {
    var mh := MutatedHeaders(names, listings);
    var perms := Permutations(Range(|mh|));
    PermutationsFirst(Range(|mh|));
    var lists := Pick(mh, perms[0]);
    assert lists == mh;
    ProductFirst(lists);
    ConcatMapAppend([perms[0]], perms[1..], ProductOf(mh));
    assert [perms[0]] + perms[1..] == perms;
    assert ConcatMap([perms[0]], ProductOf(mh)) == Product(lists) by {
      var one: seq<seq<nat>> := [perms[0]];
      assert one[..0] == [];
    }
  }

  /** Every header name and mutated form leaves a non-empty list of mutated forms. */
  lemma BasicMutantsNonEmpty(v: string, listed: seq<string>, rnd: Choices)
    requires MutantsListed(v, listed, BasicMutations, rnd)
    ensures |listed| > 0
  {
    assert Apply(AllLower, v, rnd) in Mutants(v, BasicMutations, rnd) by {
      assert BasicMutations[0] == AllLower;
    }
  }

  /** Without an error every header of every tuple can be cycled through. */
  lemma OrderHeadersCyclable(names: seq<string>, listings: seq<seq<string>>, values: Values, hs: seq<Header>)
    requires |names| == |listings| && hs in MutatedOrder(MutatedHeaders(names, listings))
    requires FirstBadName(names, values).None?
    ensures forall k :: 0 <= k < |hs| ==> Cyclable(values, hs[k].0)
  {
    MutatedOrderShape(names, listings, hs);
  }

  // ---------------------------------------------------------------------------
  // The responses
  // ---------------------------------------------------------------------------

  /** `values[org][i % len(values[org])]` */
  function CycleValue(values: Values, org: string, i: nat): string {
    match Lookup(values, org)
    case Some(l) => if |l| > 0 then l[i % |l|] else ""
    case None => ""
  }

  /** Response `i` of a tuple: each mutated name with the `i`-th value of its header, cycling. */
  function CycleHeaders(values: Values, headers: seq<Header>, i: nat): (r: seq<Header>)
    ensures |r| == |headers|
  {
    seq(|headers|, k requires 0 <= k < |headers| => (headers[k].1, CycleValue(values, headers[k].0, i)))
  }

  function CycleFor(e: Emit, values: Values, n: nat): seq<Header> -> seq<Resp> {
    headers => seq(n, i requires 0 <= i < n => Plain(e, CycleHeaders(values, headers, i)))
  }

  /** All responses: `n` per tuple, `n` the longest value list. */
  function MultHeaderResponses(e: Emit, values: Values, orders: seq<seq<Header>>): seq<Resp> {
    ConcatMap(orders, CycleFor(e, values, MaxLen(values)))
  }

  /** There are `max_k |values[k]|` responses per tuple of `mutated_order`. */
  lemma MultHeaderCount(e: Emit, values: Values, orders: seq<seq<Header>>)
    ensures |MultHeaderResponses(e, values, orders)| == |orders| * MaxLen(values)
  {
    ConcatMapUniform(orders, CycleFor(e, values, MaxLen(values)), MaxLen(values));
  }

  /**
   * Response `i` of tuple `t` has one header per header of the tuple, under the mutated name,
   * with the value at index `i mod |values[org]|` of the original name's list.
   */
  lemma MultHeaderAt(e: Emit, values: Values, orders: seq<seq<Header>>, t: nat, i: nat, k: nat)
    requires t < |orders| && i < MaxLen(values) && k < |orders[t]| && Cyclable(values, orders[t][k].0)
    ensures t * MaxLen(values) + i < |MultHeaderResponses(e, values, orders)|
    ensures var r := MultHeaderResponses(e, values, orders)[t * MaxLen(values) + i];
      var l := Lookup(values, orders[t][k].0).value;
      r.testLabel == e.testLabel && r.status == 200
      && |r.headers| == |orders[t]| + |e.base| && r.headers[k] == (orders[t][k].1, l[i % |l|])
  {
    var n := MaxLen(values);
    ConcatMapAt(orders, CycleFor(e, values, n), n, t, i);
    var hs := CycleHeaders(values, orders[t], i);
    MakeRespShape(e.base, hs, e.testLabel, 200, "parsing");
    assert hs[k] == MakeResp(e.base, hs, e.testLabel, 200, "parsing").headers[..|hs|][k];
  }

  // ---------------------------------------------------------------------------
  // The class
  // ---------------------------------------------------------------------------

  class HeaderTestsMultHeader {
    const headerNames: seq<string>
    const values: Values
    const testLabel: string
    const baseResp: seq<Header>
    /** The choices of the seeded generator behind `randomize_casing`. */
    const rnd: Choices
    var responses: seq<Resp>

    /** The constructor asserts one value list per header name. */
    constructor(headerNames: seq<string>, values: Values, testLabel: string, baseResp: seq<Header>, rnd: Choices)
      requires DistinctKeys(values) && |headerNames| == |values|
      ensures this.headerNames == headerNames && this.values == values && this.testLabel == testLabel
      ensures this.baseResp == baseResp && this.rnd == rnd && responses == []
    {
      this.headerNames := headerNames;
      this.values := values;
      this.testLabel := testLabel;
      this.baseResp := baseResp;
      this.rnd := rnd;
      responses := [];
    }

    function Out(): Emit {
      Emit(baseResp, testLabel)
    }

    /** `create_response`, inherited from `HeaderTests`. */
    method CreateResponse(header: seq<Header>, testLabel: string, statusCode: int := 200, respType: string := "parsing")
      modifies this
      ensures responses == old(responses) + [MakeResp(baseResp, header, testLabel, statusCode, respType)]
    {
      var h := header;
      if |baseResp| > 0 {
        h := h + baseResp;
      }
      responses := responses + [Resp(h, testLabel, statusCode, respType)];
    }

    /** The `mutated_headers` loop, with the order each set of mutated names is visited in. */
    method MutateHeaders() returns (mutatedHeaders: seq<seq<Header>>, listings: seq<seq<string>>)
      ensures |listings| == |headerNames|
      ensures forall k :: 0 <= k < |headerNames| ==> MutantsListed(headerNames[k], listings[k], BasicMutations, rnd)
      ensures mutatedHeaders == MutatedHeaders(headerNames, listings)
    {
      mutatedHeaders, listings := [], [];
      var k := 0;
      while k < |headerNames|
        invariant 0 <= k <= |headerNames| && |listings| == k
        invariant forall j :: 0 <= j < k ==> MutantsListed(headerNames[j], listings[j], BasicMutations, rnd)
        invariant mutatedHeaders == MutatedHeaders(headerNames[..k], listings)
      {
        var orgHeader := headerNames[k];
        var mutated := MutateHeaderValue(orgHeader, BasicMutations, rnd);
        var listed := ListSet(mutated);
        mutatedHeaders := mutatedHeaders + [MutatedPairs(orgHeader, listed)];
        listings := listings + [listed];
        k := k + 1;
      }
      assert headerNames[..k] == headerNames;
    }

    /** The innermost loop: the headers of response `i` of one tuple. */
    method CycleValues(headers: seq<Header>, i: nat) returns (resp: seq<Header>)
      requires forall k :: 0 <= k < |headers| ==> Cyclable(values, headers[k].0)
      ensures resp == CycleHeaders(values, headers, i)
    {
      ghost var all := CycleHeaders(values, headers, i);
      resp := [];
      var k := 0;
      while k < |headers|
        invariant 0 <= k <= |headers|
        invariant resp == all[..k]
      {
        var (orgHeader, header) := headers[k];
        var list := Lookup(values, orgHeader).value;
        var index := i % |list|;
        resp := resp + [(header, list[index])];
        PrefixExtend([], all, k);
        k := k + 1;
      }
    }

    /** The responses of one tuple, `for i in range(n)`. */
    method TupleTests(headers: seq<Header>, n: nat)
      requires n > 0 ==> forall k :: 0 <= k < |headers| ==> Cyclable(values, headers[k].0)
      modifies this
      ensures responses == old(responses) + CycleFor(Out(), values, n)(headers)
    {
      ghost var all := CycleFor(Out(), values, n)(headers);
      var i := 0;
      while i < n
        invariant 0 <= i <= n
        invariant responses == old(responses) + all[..i]
      {
        var resp := CycleValues(headers, i);
        CreateResponse(resp, testLabel);
        PrefixExtend(old(responses), all, i);
        i := i + 1;
      }
    }

    /** The loop over `mutated_order`. */
    method OrderTests(orders: seq<seq<Header>>, ghost listings: seq<seq<string>>)
      requires |listings| == |headerNames| && orders == MutatedOrder(MutatedHeaders(headerNames, listings))
      requires CreateError(headerNames, values).None?
      modifies this
      ensures responses == old(responses) + MultHeaderResponses(Out(), values, orders)
    {
      var n := MaxLen(values);
      ghost var f := CycleFor(Out(), values, n);
      var j := 0;
      while j < |orders|
        invariant 0 <= j <= |orders|
        invariant responses == old(responses) + ConcatMap(orders[..j], f)
      {
        if n > 0 {
          OrderHeadersCyclable(headerNames, listings, values, orders[j]);
        }
        TupleTests(orders[j], n);
        ConcatMapExtend(old(responses), orders, f, j);
        j := j + 1;
      }
      assert orders[..j] == orders;
    }

    /**
     * `create_all_tests` up to the save. The first tuple visits every header name in order
     * before anything is appended, so a failing lookup leaves `responses` as it was.
     */
    method CreateAllTests() returns (listings: seq<seq<string>>, err: Option<ValueError>)
      modifies this
      ensures |listings| == |headerNames|
      ensures forall k :: 0 <= k < |headerNames| ==> MutantsListed(headerNames[k], listings[k], BasicMutations, rnd)
      ensures err == CreateError(headerNames, values)
      ensures err.Some? ==> responses == old(responses)
      ensures err.None? ==>
        responses == old(responses) + MultHeaderResponses(Out(), values, MutatedOrder(MutatedHeaders(headerNames, listings)))
    {
      var mutatedHeaders;
      mutatedHeaders, listings := MutateHeaders();
      var mutatedOrder := MutatedOrder(mutatedHeaders);
      err := CreateError(headerNames, values);
      if err.Some? {
        return;
      }
      OrderTests(mutatedOrder, listings);
    }
  }
}
