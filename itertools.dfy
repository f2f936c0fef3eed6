/**
 * `itertools.permutations` and `itertools.product` as the header generator uses them:
 * full-length permutations in lexicographic order of positions, and the cartesian
 * product with the last list varying fastest.
 */
module Itertools {
  import opened Common

  /** The list without its element at `i`. */
  function RemoveAt<T>(xs: seq<T>, i: nat): (r: seq<T>)
    requires i < |xs|
    ensures |r| == |xs| - 1
    ensures multiset(r) + multiset{xs[i]} == multiset(xs)
  {
    assert xs == xs[..i] + [xs[i]] + xs[i + 1..];
    xs[..i] + xs[i + 1..]
  }

  /** Every list of `xss` with `x` in front. */
  function PrependAll<T>(x: T, xss: seq<seq<T>>): (r: seq<seq<T>>)
    ensures |r| == |xss| && forall k :: 0 <= k < |xss| ==> r[k] == [x] + xss[k]
  {
    seq(|xss|, k requires 0 <= k < |xss| => [x] + xss[k])
  }

  /** The blocks of `Permutations`: the orders that start with element `i`, for each `i`. */
  function PermutationBlocks<T>(xs: seq<T>): (r: seq<seq<seq<T>>>)
    ensures |r| == |xs|
    decreases |xs|, 0
  {
    seq(|xs|, i requires 0 <= i < |xs| => PrependAll(xs[i], Permutations(RemoveAt(xs, i))))
  }

  /** `list(permutations(xs))`: first the orders starting with `xs[0]`, then `xs[1]`, and so on. */
  function Permutations<T>(xs: seq<T>): seq<seq<T>>
    decreases |xs|, 1
  {
    if |xs| == 0 then [[]] else Flatten(PermutationBlocks(xs))
  }

  function Fact(n: nat): nat {
    if n == 0 then 1 else n * Fact(n - 1)
  }

  /** There are `|xs|!` orders. */
  lemma {:induction false} PermutationsCount<T>(xs: seq<T>)
    ensures |Permutations(xs)| == Fact(|xs|)
    decreases |xs|
  {
    if |xs| > 0 {
      var blocks := PermutationBlocks(xs);
      forall i | 0 <= i < |xs| ensures |blocks[i]| == Fact(|xs| - 1) {
        PermutationsCount(RemoveAt(xs, i));
      }
      FlattenUniform(blocks, Fact(|xs| - 1));
    }
  }

  /** Every order holds exactly the elements of `xs`, each as often as `xs` does. */
  lemma {:induction false} PermutationsArePermutations<T>(xs: seq<T>, p: seq<T>)
    requires p in Permutations(xs)
    ensures multiset(p) == multiset(xs) && |p| == |xs|
    decreases |xs|
  {
    if |xs| > 0 {
      var blocks := PermutationBlocks(xs);
      assert Permutations(xs) == Flatten(blocks);
      FlattenMember(blocks, p);
      var i :| 0 <= i < |blocks| && p in blocks[i];
      var ys := RemoveAt(xs, i);
      var rest := Permutations(ys);
      var k :| 0 <= k < |blocks[i]| && blocks[i][k] == p;
      assert blocks[i] == PrependAll(xs[i], rest);
      assert p == [xs[i]] + rest[k];
      PermutationsArePermutations(ys, rest[k]);
      ConsPermutation(xs[i], rest[k], ys, xs);
    }
  }

  /** Putting back the removed element in front of a rearrangement of the rest rearranges the whole. */
  lemma ConsPermutation<T>(x: T, q: seq<T>, ys: seq<T>, xs: seq<T>)
    requires multiset(q) == multiset(ys) && multiset(ys) + multiset{x} == multiset(xs)
    ensures multiset([x] + q) == multiset(xs)
  {
    assert multiset([x] + q) == multiset([x]) + multiset(q);
  }

  /** The first order is `xs` itself. */
  lemma {:induction false} PermutationsFirst<T>(xs: seq<T>)
    ensures |Permutations(xs)| > 0 && Permutations(xs)[0] == xs
    decreases |xs|
  {
    PermutationsCount(xs);
    FactPositive(|xs|);
    if |xs| > 0 {
      var blocks := PermutationBlocks(xs);
      PermutationsFirst(RemoveAt(xs, 0));
      assert blocks[0][0] == [xs[0]] + xs[1..];
      assert Flatten(blocks)[0] == blocks[0][0];
    }
  }

  lemma {:induction false} FactPositive(n: nat)
    ensures Fact(n) > 0
  {
    if n > 0 {
      FactPositive(n - 1);
    }
  }

  /** `product(*lists)`: one element from each list, the last list varying fastest. */
  function Product<T>(lists: seq<seq<T>>): seq<seq<T>>
    decreases |lists|
  {
    if |lists| == 0 then [[]]
    else
      var rest := Product(lists[1..]);
      Flatten(seq(|lists[0]|, i requires 0 <= i < |lists[0]| => PrependAll(lists[0][i], rest)))
  }

  /** The product of the list lengths. */
  function SizeProduct<T>(lists: seq<seq<T>>): nat
    decreases |lists|
  {
    if |lists| == 0 then 1 else |lists[0]| * SizeProduct(lists[1..])
  }

  /** There are as many tuples as the product of the lengths. */
  lemma {:induction false} ProductCount<T>(lists: seq<seq<T>>)
    ensures |Product(lists)| == SizeProduct(lists)
    decreases |lists|
  {
    if |lists| > 0 {
      ProductCount(lists[1..]);
      var rest := Product(lists[1..]);
      var blocks := seq(|lists[0]|, i requires 0 <= i < |lists[0]| => PrependAll(lists[0][i], rest));
      FlattenUniform(blocks, |rest|);
    }
  }

  /** A tuple has one element per list, taken from that list. */
  lemma {:induction false} ProductShape<T>(lists: seq<seq<T>>, p: seq<T>)
    requires p in Product(lists)
    ensures |p| == |lists| && forall k :: 0 <= k < |lists| ==> p[k] in lists[k]
    decreases |lists|
  {
    if |lists| > 0 {
      var rest := Product(lists[1..]);
      var blocks := seq(|lists[0]|, i requires 0 <= i < |lists[0]| => PrependAll(lists[0][i], rest));
      FlattenMember(blocks, p);
      var i :| 0 <= i < |blocks| && p in blocks[i];
      var k :| 0 <= k < |rest| && blocks[i][k] == p;
      ProductShape(lists[1..], rest[k]);
      assert p == [lists[0][i]] + rest[k];
      forall j | 0 <= j < |lists| ensures p[j] in lists[j] {
        if j > 0 {
          assert p[j] == rest[k][j - 1] && lists[j] == lists[1..][j - 1];
        }
      }
    }
  }

  /** When no list is empty, the first tuple takes the first element of every list. */
  lemma {:induction false} ProductFirst<T>(lists: seq<seq<T>>)
    requires forall k :: 0 <= k < |lists| ==> |lists[k]| > 0
    ensures |Product(lists)| > 0
    ensures Product(lists)[0] == seq(|lists|, k requires 0 <= k < |lists| => lists[k][0])
    decreases |lists|
  {
    if |lists| > 0 {
      var tail := lists[1..];
      ProductFirst(tail);
      var rest := Product(tail);
      var blocks := seq(|lists[0]|, i requires 0 <= i < |lists[0]| => PrependAll(lists[0][i], rest));
      assert Flatten(blocks)[0] == blocks[0][0];
      assert blocks[0][0] == [lists[0][0]] + rest[0];
    }
  }

  /** `range(n)` */
  function Range(n: nat): (r: seq<nat>)
    ensures |r| == n && forall i :: 0 <= i < n ==> r[i] == i
  {
    seq(n, i requires 0 <= i < n => i)
  }

  /** Every order of `range(n)` has `n` positions, each an index below `n`. */
  lemma IndexOrderInRange(n: nat, lo: seq<nat>)
    requires lo in Permutations(Range(n))
    ensures |lo| == n && forall j :: 0 <= j < |lo| ==> lo[j] < n
  {
    PermutationsArePermutations(Range(n), lo);
    forall j | 0 <= j < |lo| ensures lo[j] < n {
      assert lo[j] in multiset(lo);
      assert lo[j] in Range(n);
    }
  }
}
