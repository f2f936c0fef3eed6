/** Failure-carrying wrappers shared by every module of the model. */
module Common {

  /** A value that may be absent: a missing URL parameter, a regex search without a match. */
  datatype Option<T> = None | Some(value: T)

  /** The outcome of an operation whose Python original can raise: `Err` names the exception. */
  datatype Result<T> = Ok(value: T) | Err(error: string)

  /** Concatenation is associative (stated for an element type the solver knows nothing about). */
  lemma AppendAssoc<T>(a: seq<T>, b: seq<T>, c: seq<T>)
    ensures (a + b) + c == a + (b + c)
  {
  }

  /** The concatenation of a list of lists, in order. */
  function Flatten<T>(xss: seq<seq<T>>): (r: seq<T>)
    decreases |xss|
  {
    if |xss| == 0 then [] else xss[0] + Flatten(xss[1..])
  }

  /** Flattening distributes over concatenation. */
  lemma {:induction false} FlattenAppend<T>(a: seq<seq<T>>, b: seq<seq<T>>)
    ensures Flatten(a + b) == Flatten(a) + Flatten(b)
    decreases |a|
  {
    if |a| > 0 {
      assert (a + b)[0] == a[0];
      assert (a + b)[1..] == a[1..] + b;
      FlattenAppend(a[1..], b);
    } else {
      assert a + b == b;
    }
  }

  /** Every element of one of the lists is an element of the flattened list. */
  lemma {:induction false} FlattenContains<T>(xss: seq<seq<T>>, i: nat, x: T)
    requires i < |xss| && x in xss[i]
    ensures x in Flatten(xss)
    decreases i
  {
    if i > 0 {
      assert xss[1..][i - 1] == xss[i];
      FlattenContains(xss[1..], i - 1, x);
    }
  }

  /** An element of the flattened list is an element of one of the lists. */
  lemma {:induction false} FlattenMember<T>(xss: seq<seq<T>>, x: T)
    requires x in Flatten(xss)
    ensures exists i :: 0 <= i < |xss| && x in xss[i]
    decreases |xss|
  {
    if x !in xss[0] {
      FlattenMember(xss[1..], x);
      var i :| 0 <= i < |xss[1..]| && x in xss[1..][i];
      assert xss[i + 1] == xss[1..][i];
    }
  }

  /** Lists that all have `n` elements flatten to `n` elements per list. */
  lemma {:induction false} FlattenUniform<T>(xss: seq<seq<T>>, n: nat)
    requires forall i :: 0 <= i < |xss| ==> |xss[i]| == n
    ensures |Flatten(xss)| == |xss| * n
    decreases |xss|
  {
    if |xss| > 0 {
      assert forall i :: 0 <= i < |xss[1..]| ==> xss[1..][i] == xss[i + 1];
      FlattenUniform(xss[1..], n);
    }
  }

  /** The lists `f` gives the elements of a list, concatenated in order: a loop that appends a block per element. */
  function ConcatMap<A, B>(xs: seq<A>, f: A -> seq<B>): seq<B>
    decreases |xs|
  {
    if |xs| == 0 then [] else ConcatMap(xs[..|xs| - 1], f) + f(xs[|xs| - 1])
  }

  /** One more element appends its block. */
  lemma ConcatMapStep<A, B>(xs: seq<A>, f: A -> seq<B>, i: nat)
    requires i < |xs|
    ensures ConcatMap(xs[..i + 1], f) == ConcatMap(xs[..i], f) + f(xs[i])
  {
    assert xs[..i + 1][..i] == xs[..i];
  }

  /** The blocks of two lists in a row are the blocks of their concatenation. */
  lemma {:induction false} ConcatMapAppend<A, B>(a: seq<A>, b: seq<A>, f: A -> seq<B>)
    ensures ConcatMap(a + b, f) == ConcatMap(a, f) + ConcatMap(b, f)
    decreases |b|
  {
    if |b| > 0 {
      var b' := b[..|b| - 1];
      assert (a + b)[..|a + b| - 1] == a + b';
      ConcatMapAppend(a, b', f);
    } else {
      assert a + b == a;
    }
  }

  /** One more element of a loop that appends `s` one element at a time. */
  lemma PrefixExtend<T>(r0: seq<T>, s: seq<T>, k: nat)
    requires k < |s|
    ensures r0 + s[..k] + [s[k]] == r0 + s[..k + 1]
  {
    assert s[..k + 1] == s[..k] + [s[k]];
  }

  /** One more element of a loop over `xs` appends its block after what the earlier ones appended. */
  lemma ConcatMapExtend<A, B>(r0: seq<B>, xs: seq<A>, f: A -> seq<B>, i: nat)
    requires i < |xs|
    ensures r0 + ConcatMap(xs[..i], f) + f(xs[i]) == r0 + ConcatMap(xs[..i + 1], f)
  {
    ConcatMapStep(xs, f, i);
  }

  /** The same for a list that grows as the loop runs. */
  lemma ConcatMapSnoc<A, B>(r0: seq<B>, xs: seq<A>, x: A, f: A -> seq<B>)
    ensures r0 + ConcatMap(xs, f) + f(x) == r0 + ConcatMap(xs + [x], f)
  {
    assert (xs + [x])[..|xs|] == xs;
  }

  /** Blocks of `n` elements each: `n` elements per list element. */
  lemma {:induction false} ConcatMapUniform<A, B>(xs: seq<A>, f: A -> seq<B>, n: nat)
    requires forall i :: 0 <= i < |xs| ==> |f(xs[i])| == n
    ensures |ConcatMap(xs, f)| == |xs| * n
    decreases |xs|
  {
    if |xs| > 0 {
      var init := xs[..|xs| - 1];
      assert forall i :: 0 <= i < |init| ==> init[i] == xs[i];
      ConcatMapUniform(init, f, n);
    }
  }

  /** With blocks of `n` elements, element `j` of block `i` sits at position `i * n + j`. */
  lemma {:induction false} ConcatMapAt<A, B>(xs: seq<A>, f: A -> seq<B>, n: nat, i: nat, j: nat)
    requires forall k :: 0 <= k < |xs| ==> |f(xs[k])| == n
    requires i < |xs| && j < n
    ensures i * n + j < |ConcatMap(xs, f)| && ConcatMap(xs, f)[i * n + j] == f(xs[i])[j]
    decreases |xs|
  {
    var init := xs[..|xs| - 1];
    assert forall k :: 0 <= k < |init| ==> init[k] == xs[k];
    ConcatMapUniform(init, f, n);
    if i < |init| {
      ConcatMapAt(init, f, n, i, j);
      assert i * n + j < |init| * n by {
        assert i * n + j < (i + 1) * n;
        assert (i + 1) * n <= |init| * n;
      }
    } else {
      assert i == |init|;
    }
  }

  /** An element of the concatenated blocks belongs to the block of some element. */
  lemma {:induction false} ConcatMapMember<A, B>(xs: seq<A>, f: A -> seq<B>, y: B)
    ensures y in ConcatMap(xs, f) <==> exists i :: 0 <= i < |xs| && y in f(xs[i])
    decreases |xs|
  {
    if |xs| > 0 {
      var init := xs[..|xs| - 1];
      ConcatMapMember(init, f, y);
      if y in ConcatMap(init, f) {
        var i :| 0 <= i < |init| && y in f(init[i]);
        assert init[i] == xs[i];
      }
      if exists i :: 0 <= i < |xs| && y in f(xs[i]) {
        var i :| 0 <= i < |xs| && y in f(xs[i]);
        if i < |init| {
          assert init[i] == xs[i];
        }
      }
    }
  }

  /**
   * Apply a step that may fail to every element in order, stopping at the first failure:
   * the shape of a Python loop whose body can raise.
   */
  function MapResult<A, B>(xs: seq<A>, f: A -> Result<B>): (r: Result<seq<B>>)
    decreases |xs|
  {
    if |xs| == 0 then Ok([])
    else match MapResult(xs[..|xs| - 1], f)
      case Err(e) => Err(e)
      case Ok(ys) =>
        match f(xs[|xs| - 1])
        case Err(e) => Err(e)
        case Ok(y) => Ok(ys + [y])
  }

  /** The loop succeeds exactly when every step does. */
  lemma {:induction false} MapResultOk<A, B>(xs: seq<A>, f: A -> Result<B>)
    ensures MapResult(xs, f).Ok? <==> forall k :: 0 <= k < |xs| ==> f(xs[k]).Ok?
    decreases |xs|
  {
    if |xs| > 0 {
      var init := xs[..|xs| - 1];
      MapResultOk(init, f);
      assert forall k :: 0 <= k < |init| ==> init[k] == xs[k];
    }
  }

  /** A successful loop yields one result per element, in order. */
  lemma {:induction false} MapResultEach<A, B>(xs: seq<A>, f: A -> Result<B>)
    requires MapResult(xs, f).Ok?
    ensures var ys := MapResult(xs, f).value;
      |ys| == |xs| && forall k :: 0 <= k < |xs| ==> f(xs[k]) == Ok(ys[k])
    decreases |xs|
  {
    if |xs| > 0 {
      var init := xs[..|xs| - 1];
      MapResultEach(init, f);
      assert forall k :: 0 <= k < |init| ==> init[k] == xs[k];
    }
  }

  /** Once a prefix fails, the whole loop fails, with the prefix's error. */
  lemma {:induction false} MapResultPrefixErr<A, B>(xs: seq<A>, f: A -> Result<B>, n: nat)
    requires n <= |xs| && MapResult(xs[..n], f).Err?
    ensures MapResult(xs, f) == MapResult(xs[..n], f)
    decreases |xs| - n
  {
    if n < |xs| {
      assert xs[..n + 1][..n] == xs[..n];
      MapResultPrefixErr(xs, f, n + 1);
    } else {
      assert xs[..n] == xs;
    }
  }

  /** A non-empty set has an element, as the first step of iterating over it. */
  lemma NonEmptyHas(s: set<int>)
    requires s != {}
    ensures exists x :: x in s
  {
    if forall x :: x !in s {
      assert false;
    }
  }

  /** The same for a set of strings. */
  lemma NonEmptyHasText(s: set<string>)
    requires s != {}
    ensures exists x :: x in s
  {
    if forall x :: x !in s {
      assert false;
    }
  }
}
