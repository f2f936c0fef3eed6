/**
 * The regular expressions the core applies to test URLs, written as token
 * sequences: a literal, `\d+`, `\w+` (ASCII word characters) or a two-way
 * literal alternation such as `(yes|no)`. Class runs are matched greedily
 * without backtracking; for these patterns that is what Python's `re` does,
 * because every class token either ends the pattern or is followed by a
 * literal whose first character lies outside the class.
 */
module Patterns {
  import opened Common
  import opened Strings

  datatype Token = Lit(text: string) | Digits | Word | Either(first: string, second: string)

  /** A pattern: its tokens in order. */
  datatype Pattern = End | Then(head: Token, tail: Pattern)

  predicate IsWordChar(c: char) {
    IsDigit(c) || IsAsciiLower(c) || IsAsciiUpper(c) || c == '_'
  }

  predicate InClass(c: char, word: bool) {
    if word then IsWordChar(c) else IsDigit(c)
  }

  /** The number of leading characters of `s` in the class (`\d` or `\w`). */
  function ClassRun(s: string, word: bool): (n: nat)
    ensures n <= |s|
    ensures forall i :: 0 <= i < n ==> InClass(s[i], word)
    ensures n < |s| ==> !InClass(s[n], word)
    decreases |s|
  {
    if |s| > 0 && InClass(s[0], word) then 1 + ClassRun(s[1..], word) else 0
  }

  /** How many characters one token takes at the start of `s`; `|s| + 1` when it does not match there. */
  function HeadLen(s: string, t: Token): (n: nat)
    ensures n <= |s| ==> (t.Digits? || t.Word?) ==> n > 0
  {
    match t
    case Lit(text) => if StartsWith(s, text) then |text| else |s| + 1
    case Digits => var k := ClassRun(s, false); if k > 0 then k else |s| + 1
    case Word => var k := ClassRun(s, true); if k > 0 then k else |s| + 1
    case Either(a, b) =>
      if StartsWith(s, a) then |a| else if StartsWith(s, b) then |b| else |s| + 1
  }

  /** The length of the match of `pat` at the start of `s`, if it matches there. */
  function MatchLen(s: string, pat: Pattern): (r: Option<nat>)
    ensures r.Some? ==> r.value <= |s|
  {
    match pat
    case End => Some(0)
    case Then(t, rest) =>
      var head := HeadLen(s, t);
      if head > |s| then None
      else match MatchLen(s[head..], rest)
        case Some(k) => Some(head + k)
        case None => None
  }

  /** A pattern matches `h + k` characters where its first token takes `h` and the rest of it `k` after them. */
  lemma MatchCons(s: string, t: Token, pat: Pattern, h: nat, k: nat)
    requires HeadLen(s, t) == h <= |s| && MatchLen(s[h..], pat) == Some(k)
    ensures MatchLen(s, Then(t, pat)) == Some(h + k)
  {
  }

  /** A literal in front of text the rest of a pattern matches. */
  lemma LitCons(lit: string, s: string, pat: Pattern, k: nat)
    requires MatchLen(s, pat) == Some(k)
    ensures MatchLen(lit + s, Then(Lit(lit), pat)) == Some(|lit| + k)
  {
    var q := lit + s;
    assert HeadLen(q, Lit(lit)) == |lit| by {
      assert q[..|lit|] == lit;
    }
    assert q[|lit|..] == s;
    MatchCons(q, Lit(lit), pat, |lit|, k);
  }

  /** A maximal run of digits in front of text the rest of a pattern matches. */
  lemma DigitsCons(d: string, s: string, pat: Pattern, k: nat)
    requires |d| > 0 && AllDigits(d) && (|s| == 0 || !IsDigit(s[0]))
    requires MatchLen(s, pat) == Some(k)
    ensures MatchLen(d + s, Then(Digits, pat)) == Some(|d| + k)
  {
    assert HeadLen(d + s, Digits) == |d| by {
      ClassRunOf(d, s, false);
    }
    assert (d + s)[|d|..] == s;
    MatchCons(d + s, Digits, pat, |d|, k);
  }

  /** A pattern whose first token cannot match the empty string. */
  predicate Consuming(pat: Pattern) {
    pat.Then? &&
    match pat.head
    case Lit(t) => |t| > 0
    case Digits => true
    case Word => true
    case Either(a, b) => |a| > 0 && |b| > 0
  }

  lemma MatchLenPositive(s: string, pat: Pattern)
    requires Consuming(pat) && MatchLen(s, pat).Some?
    ensures MatchLen(s, pat).value > 0
  {
  }

  /** `re.sub(pat, rep, s)` with a constant replacement. */
  function Sub(s: string, pat: Pattern, rep: string): string
    requires Consuming(pat)
    decreases |s|
  {
    if |s| == 0 then []
    else match MatchLen(s, pat)
      case Some(k) =>
        MatchLenPositive(s, pat);
        rep + Sub(s[k..], pat, rep)
      case None => [s[0]] + Sub(s[1..], pat, rep)
  }

  /** A string in which the pattern's leading literal never occurs is left unchanged. */
  lemma {:induction false} SubAbsent(s: string, pat: Pattern, rep: string)
    requires Consuming(pat) && pat.head.Lit? && !Contains(s, pat.head.text)
    ensures Sub(s, pat, rep) == s
    decreases |s|
  {
    if |s| > 0 {
      assert !StartsWith(s, pat.head.text);
      SubAbsent(s[1..], pat, rep);
      assert [s[0]] + s[1..] == s;
    }
  }

  /** Substitution distributes over a prefix that holds no match attempt at all. */
  lemma {:induction false} SubSkipsPrefix(p: string, s: string, pat: Pattern, rep: string)
    requires Consuming(pat) && pat.head.Lit?
    requires forall i :: 0 <= i < |p| ==> !StartsWith((p + s)[i..], pat.head.text)
    ensures Sub(p + s, pat, rep) == p + Sub(s, pat, rep)
    decreases |p|
  {
    if |p| > 0 {
      assert (p + s)[0..] == p + s;
      SubSkipsOne(p, s, pat, rep);
      NoStartShift(p, s, pat.head.text);
      SubSkipsPrefix(p[1..], s, pat, rep);
      assert [p[0]] + (p[1..] + Sub(s, pat, rep)) == p + Sub(s, pat, rep);
    } else {
      assert p + s == s;
    }
  }

  /** One step of SubSkipsPrefix: the first character of the prefix is copied. */
  lemma SubSkipsOne(p: string, s: string, pat: Pattern, rep: string)
    requires Consuming(pat) && pat.head.Lit? && |p| > 0
    requires !StartsWith(p + s, pat.head.text)
    ensures Sub(p + s, pat, rep) == [p[0]] + Sub(p[1..] + s, pat, rep)
  {
    var q := p + s;
    LitMismatch(q, pat);
    SubCopies(q, pat, rep);
    assert q[1..] == p[1..] + s;
  }

  lemma SubCopies(q: string, pat: Pattern, rep: string)
    requires Consuming(pat) && |q| > 0 && MatchLen(q, pat) == None
    ensures Sub(q, pat, rep) == [q[0]] + Sub(q[1..], pat, rep)
  {
  }

  lemma NoStartShift(p: string, s: string, t: string)
    requires |p| > 0 && forall i :: 0 <= i < |p| ==> !StartsWith((p + s)[i..], t)
    ensures forall i :: 0 <= i < |p[1..]| ==> !StartsWith((p[1..] + s)[i..], t)
  {
    forall i | 0 <= i < |p[1..]| ensures !StartsWith((p[1..] + s)[i..], t) {
      assert (p[1..] + s)[i..] == (p + s)[i + 1..];
    }
  }

  /** Where the leading literal does not start, the substitution copies one character and moves on. */
  lemma LitMismatch(q: string, pat: Pattern)
    requires Consuming(pat) && pat.head.Lit? && |q| > 0 && !StartsWith(q, pat.head.text)
    ensures MatchLen(q, pat) == None
  {
  }

  /** `re.sub(re.escape(c), rep, s, count=1)`: replace the first occurrence of `c` only. */
  function SubFirst(s: string, c: char, rep: string): (r: string)
    decreases |s|
  {
    if |s| == 0 then []
    else if s[0] == c then rep + s[1..]
    else [s[0]] + SubFirst(s[1..], c, rep)
  }

  /** SubFirst splits the string at the first `c` and puts `rep` in its place. */
  lemma {:induction false} SubFirstAt(s: string, c: char, rep: string, i: nat)
    requires i < |s| && s[i] == c && forall j :: 0 <= j < i ==> s[j] != c
    ensures SubFirst(s, c, rep) == s[..i] + rep + s[i + 1..]
    decreases i
  {
    if i > 0 {
      SubFirstAt(s[1..], c, rep, i - 1);
      assert s[1..][..i - 1] == s[1..i];
      assert s[1..][i..] == s[i + 1..];
      assert [s[0]] + s[1..i] == s[..i];
    }
  }

  /** Without a `c`, SubFirst changes nothing. */
  lemma {:induction false} SubFirstAbsent(s: string, c: char, rep: string)
    requires forall j :: 0 <= j < |s| ==> s[j] != c
    ensures SubFirst(s, c, rep) == s
    decreases |s|
  {
    if |s| > 0 {
      SubFirstAbsent(s[1..], c, rep);
      assert [s[0]] + s[1..] == s;
    }
  }

  /**
   * `re.search(lit + r"(\d+)", s)[1]` (or `\w+` when `word`): the class run that
   * follows the leftmost occurrence of `lit` that is followed by at least one class character.
   */
  function Search(s: string, lit: string, word: bool): (r: Option<string>)
    ensures r.Some? ==> |r.value| > 0 && forall i :: 0 <= i < |r.value| ==> InClass(r.value[i], word)
    decreases |s|
  {
    if StartsWith(s, lit) && ClassRun(s[|lit|..], word) > 0 then
      Some(s[|lit|..][..ClassRun(s[|lit|..], word)])
    else if |s| == 0 then None
    else Search(s[1..], lit, word)
  }

  /** A search succeeds exactly on text that holds the literal followed by the captured run. */
  lemma {:induction false} SearchFound(s: string, lit: string, word: bool)
    requires Search(s, lit, word).Some?
    ensures Contains(s, lit + Search(s, lit, word).value)
    decreases |s|
  {
    if StartsWith(s, lit) && ClassRun(s[|lit|..], word) > 0 {
      var d := Search(s, lit, word).value;
      assert s[..|lit| + |d|] == lit + d;
      ContainsAt(s, lit + d, 0);
    } else {
      SearchFound(s[1..], lit, word);
      var d := Search(s, lit, word).value;
      ContainsSuffix([s[0]], s[1..], lit + d);
      assert [s[0]] + s[1..] == s;
    }
  }

  /** A search for a literal that never occurs fails. */
  lemma {:induction false} SearchAbsent(s: string, lit: string, word: bool)
    requires !Contains(s, lit)
    ensures Search(s, lit, word) == None
    decreases |s|
  {
    if |s| > 0 {
      SearchAbsent(s[1..], lit, word);
    }
  }

  /** The longest prefix of decimal digits. */
  function LeadingDigits(s: string): (d: string)
    ensures AllDigits(d)
  {
    s[..ClassRun(s, false)]
  }

  /** A run of class characters followed by a character outside the class (or nothing) is the whole run. */
  lemma {:induction false} ClassRunOf(d: string, rest: string, word: bool)
    requires (forall i :: 0 <= i < |d| ==> InClass(d[i], word)) && (|rest| == 0 || !InClass(rest[0], word))
    ensures ClassRun(d + rest, word) == |d|
    decreases |d|
  {
    if |d| > 0 {
      assert (d + rest)[1..] == d[1..] + rest;
      ClassRunOf(d[1..], rest, word);
    } else {
      assert d + rest == rest;
    }
  }

  /** In particular the leading digits of a digit string followed by a non-digit are that string. */
  lemma LeadingDigitsOf(d: string, rest: string)
    requires AllDigits(d) && (|rest| == 0 || !IsDigit(rest[0]))
    ensures LeadingDigits(d + rest) == d
  {
    ClassRunOf(d, rest, false);
    assert (d + rest)[..|d|] == d;
  }

  /**
   * The search finds the run right after `lit` when the text before it cannot hold an
   * occurrence: `lit`'s last character appears nowhere else in `lit` and nowhere in `pre`.
   */
  lemma {:induction false} SearchAfter(pre: string, lit: string, d: string, rest: string, word: bool)
    requires |lit| > 0 && forall j :: 0 <= j < |lit| - 1 ==> lit[j] != lit[|lit| - 1]
    requires forall j :: 0 <= j < |pre| ==> pre[j] != lit[|lit| - 1]
    requires |d| > 0 && (forall i :: 0 <= i < |d| ==> InClass(d[i], word)) && (|rest| == 0 || !InClass(rest[0], word))
    ensures Search(pre + lit + d + rest, lit, word) == Some(d)
    decreases |pre|
  {
    var s := pre + lit + d + rest;
    if |pre| == 0 {
      assert s == lit + (d + rest);
      assert s[|lit|..] == d + rest;
      ClassRunOf(d, rest, word);
      assert (d + rest)[..|d|] == d;
    } else {
      var last := |lit| - 1;
      if last < |pre| {
        assert s[last] == pre[last];
      } else {
        assert s[last] == lit[last - |pre|];
      }
      assert s[last] != lit[last];
      assert s[1..] == pre[1..] + lit + d + rest;
      SearchAfter(pre[1..], lit, d, rest, word);
    }
  }
}
