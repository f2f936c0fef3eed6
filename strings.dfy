/**
 * The Python string operations the core relies on, over `seq<char>`:
 * ASCII case mapping (`str.upper`, `str.lower`), `startswith`, `in`,
 * `str.replace`, `str.join`, `str.split`, `str.strip`, `str(n)` and `int(s)`.
 */
module Strings {
  import opened Common

  // ---------------------------------------------------------------------------
  // Case mapping (ASCII letters; every other character is left unchanged)
  // ---------------------------------------------------------------------------

  predicate IsAsciiLower(c: char) { 'a' <= c <= 'z' }
  predicate IsAsciiUpper(c: char) { 'A' <= c <= 'Z' }

  function UpperChar(c: char): (r: char)
    ensures IsAsciiLower(c) ==> IsAsciiUpper(r) && r as int == c as int - 32
    ensures !IsAsciiLower(c) ==> r == c
  {
    if IsAsciiLower(c) then (c as int - 32) as char else c
  }

  function LowerChar(c: char): (r: char)
    ensures IsAsciiUpper(c) ==> IsAsciiLower(r) && r as int == c as int + 32
    ensures !IsAsciiUpper(c) ==> r == c
  {
    if IsAsciiUpper(c) then (c as int + 32) as char else c
  }

  /** `s.upper()` */
  function Upper(s: string): (r: string)
    ensures |r| == |s|
    ensures forall i :: 0 <= i < |s| ==> r[i] == UpperChar(s[i])
  {
    seq(|s|, i requires 0 <= i < |s| => UpperChar(s[i]))
  }

  /** `s.lower()` */
  function Lower(s: string): (r: string)
    ensures |r| == |s|
    ensures forall i :: 0 <= i < |s| ==> r[i] == LowerChar(s[i])
  {
    seq(|s|, i requires 0 <= i < |s| => LowerChar(s[i]))
  }

  /** Upper- and lower-casing absorb one another: only the last mapping applied counts. */
  lemma CaseAbsorbs(c: char)
    ensures UpperChar(UpperChar(c)) == UpperChar(c) && UpperChar(LowerChar(c)) == UpperChar(c)
    ensures LowerChar(LowerChar(c)) == LowerChar(c) && LowerChar(UpperChar(c)) == LowerChar(c)
  {
  }

  // ---------------------------------------------------------------------------
  // Prefixes and substrings
  // ---------------------------------------------------------------------------

  /** `s.startswith(p)` */
  predicate StartsWith(s: string, p: string) {
    |p| <= |s| && s[..|p|] == p
  }

  /** `p in s` */
  predicate Contains(s: string, p: string)
    decreases |s|
  {
    StartsWith(s, p) || (|s| > 0 && Contains(s[1..], p))
  }

  lemma ContainsAt(s: string, p: string, i: nat)
    requires i + |p| <= |s| && s[i..i + |p|] == p
    ensures Contains(s, p)
    decreases i
  {
    if i > 0 {
      assert s[1..][i - 1..i - 1 + |p|] == s[i..i + |p|];
      ContainsAt(s[1..], p, i - 1);
    }
  }

  lemma ContainsPrefix(s: string, t: string, p: string)
    requires Contains(s, p)
    ensures Contains(s + t, p)
    decreases |s|
  {
    if StartsWith(s, p) {
      assert (s + t)[..|p|] == s[..|p|];
    } else {
      assert (s + t)[1..] == s[1..] + t;
      ContainsPrefix(s[1..], t, p);
    }
  }

  lemma ContainsSuffix(t: string, s: string, p: string)
    requires Contains(s, p)
    ensures Contains(t + s, p)
    decreases |t|
  {
    if |t| > 0 {
      assert (t + s)[1..] == t[1..] + s;
      ContainsSuffix(t[1..], s, p);
    } else {
      assert t + s == s;
    }
  }

  /** An occurrence of `p` in `s` has a position. */
  lemma {:induction false} ContainsWitness(s: string, p: string) returns (i: nat)
    requires Contains(s, p)
    ensures i + |p| <= |s| && s[i..i + |p|] == p
    ensures forall j :: 0 <= j < |p| ==> s[i + j] == p[j]
    decreases |s|
  {
    if StartsWith(s, p) {
      i := 0;
    } else {
      var k := ContainsWitness(s[1..], p);
      i := k + 1;
      assert s[i..i + |p|] == s[1..][k..k + |p|];
    }
  }

  /** `s` holds the characters `a` and `b` side by side at position `i`. */
  predicate PairAt(s: string, i: nat, a: char, b: char)
    requires i + 1 < |s|
  {
    s[i] == a && s[i + 1] == b
  }

  /** `a` is never directly followed by `b` in `s`. */
  predicate PairFree(s: string, a: char, b: char) {
    forall i: nat :: i + 1 < |s| ==> !PairAt(s, i, a, b)
  }

  /** `p` does not occur in `s` when its first two characters never stand side by side in `s`. */
  lemma NotContainsByPair(s: string, p: string)
    requires |p| >= 2 && PairFree(s, p[0], p[1])
    ensures !Contains(s, p)
  {
    if Contains(s, p) {
      var i := ContainsWitness(s, p);
      assert PairAt(s, i, p[0], p[1]);
    }
  }

  // ---------------------------------------------------------------------------
  // str.replace (non-overlapping, left to right)
  // ---------------------------------------------------------------------------

  /** `s.replace(pat, rep)` for a non-empty `pat` */
  function ReplaceAll(s: string, pat: string, rep: string): string
    requires |pat| > 0
    decreases |s|
  {
    if |s| == 0 then []
    else if StartsWith(s, pat) then rep + ReplaceAll(s[|pat|..], pat, rep)
    else [s[0]] + ReplaceAll(s[1..], pat, rep)
  }

  /** A string without an occurrence of the pattern is returned unchanged. */
  lemma {:induction false} ReplaceAllAbsent(s: string, pat: string, rep: string)
    requires |pat| > 0 && !Contains(s, pat)
    ensures ReplaceAll(s, pat, rep) == s
    decreases |s|
  {
    if |s| > 0 {
      ReplaceAllAbsent(s[1..], pat, rep);
      assert [s[0]] + s[1..] == s;
    }
  }

  /** Where the pattern occurs, the replacement text occurs in the result. */
  lemma {:induction false} ReplaceAllInserts(s: string, pat: string, rep: string)
    requires |pat| > 0 && Contains(s, pat)
    ensures Contains(ReplaceAll(s, pat, rep), rep)
    decreases |s|
  {
    if StartsWith(s, pat) {
      var r := ReplaceAll(s, pat, rep);
      assert r[..|rep|] == rep;
    } else {
      ReplaceAllInserts(s[1..], pat, rep);
      ContainsSuffix([s[0]], ReplaceAll(s[1..], pat, rep), rep);
    }
  }

  /** Replacing a pattern by itself is the identity. */
  lemma {:induction false} ReplaceAllSelf(s: string, pat: string)
    requires |pat| > 0
    ensures ReplaceAll(s, pat, pat) == s
    decreases |s|
  {
    if |s| == 0 {
    } else if StartsWith(s, pat) {
      ReplaceAllSelf(s[|pat|..], pat);
      assert s[..|pat|] + s[|pat|..] == s;
    } else {
      ReplaceAllSelf(s[1..], pat);
      assert [s[0]] + s[1..] == s;
    }
  }

  /** Replacing one character by one character maps the string position by position. */
  lemma {:induction false} ReplaceCharByChar(s: string, c: char, d: char)
    ensures var r := ReplaceAll(s, [c], [d]);
      |r| == |s| && forall i :: 0 <= i < |s| ==> r[i] == if s[i] == c then d else s[i]
    decreases |s|
  {
    if |s| > 0 {
      ReplaceCharByChar(s[1..], c, d);
      var r := ReplaceAll(s, [c], [d]);
      var t := ReplaceAll(s[1..], [c], [d]);
      assert StartsWith(s, [c]) <==> s[0] == c;
      assert r == [if s[0] == c then d else s[0]] + t;
      forall i | 0 <= i < |s| ensures r[i] == if s[i] == c then d else s[i] {
        if i > 0 { assert r[i] == t[i - 1] && s[i] == s[1..][i - 1]; }
      }
    }
  }

  /** Deleting a character: the result is shorter than the input exactly when the character occurs. */
  lemma {:induction false} ReplaceCharByNothing(s: string, c: char)
    ensures |ReplaceAll(s, [c], [])| <= |s|
    ensures Contains(s, [c]) ==> |ReplaceAll(s, [c], [])| < |s|
    decreases |s|
  {
    if |s| > 0 {
      ReplaceCharByNothing(s[1..], c);
      assert StartsWith(s, [c]) <==> s[0] == c;
    }
  }

  // ---------------------------------------------------------------------------
  // str.join and str.split with a one-character separator
  // ---------------------------------------------------------------------------

  /** `sep.join(xs)` */
  function Join(sep: string, xs: seq<string>): string
    decreases |xs|
  {
    if |xs| == 0 then "" else if |xs| == 1 then xs[0] else xs[0] + sep + Join(sep, xs[1..])
  }

  /** `s.split(c)`: the maximal pieces between occurrences of `c` (at least one piece). */
  function Split(s: string, c: char): (r: seq<string>)
    ensures |r| >= 1
    decreases |s|
  {
    if |s| == 0 then [""]
    else
      var rest := Split(s[1..], c);
      if s[0] == c then [""] + rest else [[s[0]] + rest[0]] + rest[1..]
  }

  /** Splitting and re-joining with the same separator gives the input back, and no piece holds the separator. */
  lemma {:induction false} SplitJoin(s: string, c: char)
    ensures Join([c], Split(s, c)) == s
    ensures forall k, i :: 0 <= k < |Split(s, c)| && 0 <= i < |Split(s, c)[k]| ==> Split(s, c)[k][i] != c
    decreases |s|
  {
    if |s| > 0 {
      SplitJoin(s[1..], c);
      var rest := Split(s[1..], c);
      if s[0] == c {
        assert Join([c], [""] + rest) == "" + [c] + Join([c], rest) by {
          assert ([""] + rest)[1..] == rest;
        }
        assert s == [c] + s[1..];
      } else {
        var r := Split(s, c);
        assert r == [[s[0]] + rest[0]] + rest[1..];
        if |rest| == 1 {
          assert Join([c], r) == [s[0]] + rest[0];
        } else {
          assert Join([c], rest) == rest[0] + [c] + Join([c], rest[1..]);
          assert r[1..] == rest[1..];
          assert Join([c], r) == [s[0]] + rest[0] + [c] + Join([c], rest[1..]);
        }
        assert s == [s[0]] + s[1..];
        forall k, i | 0 <= k < |r| && 0 <= i < |r[k]| ensures r[k][i] != c {
          if k == 0 {
            if i > 0 { assert r[0][i] == rest[0][i - 1]; }
          } else {
            assert r[k] == rest[k];
          }
        }
      }
    }
  }

  /** A string without the separator splits into itself alone. */
  lemma {:induction false} SplitNoSeparator(s: string, c: char)
    requires forall i :: 0 <= i < |s| ==> s[i] != c
    ensures Split(s, c) == [s]
    decreases |s|
  {
    if |s| > 0 {
      SplitNoSeparator(s[1..], c);
      assert [s[0]] + s[1..] == s;
    }
  }

  /** The last piece of `s.split(c)`, i.e. `s.split(c)[-1]`: everything after the last `c`. */
  function LastPiece(s: string, c: char): string {
    var parts := Split(s, c);
    parts[|parts| - 1]
  }

  /** The first piece of `s.split(c)`, i.e. `s.split(c)[0]`: everything before the first `c`. */
  function FirstPiece(s: string, c: char): string {
    Split(s, c)[0]
  }

  /** The last piece is a suffix without the separator, preceded by the separator unless it is the whole string. */
  lemma {:induction false} LastPieceIsSuffix(s: string, c: char)
    ensures var p := LastPiece(s, c);
      |p| <= |s| && s[|s| - |p|..] == p && (forall i :: 0 <= i < |p| ==> p[i] != c)
      && (|p| < |s| ==> s[|s| - |p| - 1] == c)
    decreases |s|
  {
    SplitJoin(s, c);
    if |s| > 0 {
      LastPieceIsSuffix(s[1..], c);
      var rest := Split(s[1..], c);
      var q := LastPiece(s[1..], c);
      if s[0] == c {
        assert LastPiece(s, c) == q;
      } else if |rest| == 1 {
        assert LastPiece(s, c) == [s[0]] + rest[0];
        assert rest[0] == q;
        assert |q| == |s[1..]| by {
          assert Join([c], rest) == rest[0];
        }
        assert s[1..] == q by { assert s[1..][|s[1..]| - |q|..] == s[1..]; }
        assert s == [s[0]] + s[1..];
      } else {
        assert LastPiece(s, c) == q;
      }
      var p := LastPiece(s, c);
      assert s[|s| - |p|..] == p by {
        if |p| < |s| { assert s[|s| - |p|..] == s[1..][|s[1..]| - |p|..]; }
      }
      if s[0] != c && |rest| > 1 {
        if |q| == |s[1..]| {
          assert q == s[1..] by { assert s[1..][|s[1..]| - |q|..] == s[1..]; }
          SplitNoSeparator(s[1..], c);
          assert false;
        }
      }
      if |p| < |s| - 1 {
        assert s[|s| - |p| - 1] == s[1..][|s[1..]| - |p| - 1];
      }
    }
  }

  /** Splitting at a separator splits the two sides independently. */
  lemma {:induction false} SplitConcat(x: string, y: string, c: char)
    ensures Split(x + [c] + y, c) == Split(x, c) + Split(y, c)
    decreases |x|
  {
    var s := x + [c] + y;
    if |x| == 0 {
      assert s[1..] == y;
    } else {
      assert s[1..] == x[1..] + [c] + y;
      SplitConcat(x[1..], y, c);
    }
  }

  /** Whatever follows the last separator is the last piece. */
  lemma LastPieceAfter(a: string, b: string, c: char)
    requires forall i :: 0 <= i < |b| ==> b[i] != c
    ensures LastPiece(a + [c] + b, c) == b
  {
    SplitConcat(a, b, c);
    SplitNoSeparator(b, c);
  }

  /** A piece without the separator followed by the separator is split off as the first piece. */
  lemma SplitPrefix(a: string, t: string, c: char)
    requires forall i :: 0 <= i < |a| ==> a[i] != c
    ensures Split(a + [c] + t, c) == [a] + Split(t, c)
  {
    SplitConcat(a, t, c);
    SplitNoSeparator(a, c);
  }

  /** Joining pieces that hold no separator and splitting again gives the pieces back. */
  lemma {:induction false} JoinSplit(xs: seq<string>, c: char)
    requires |xs| >= 1
    requires forall k, i :: 0 <= k < |xs| && 0 <= i < |xs[k]| ==> xs[k][i] != c
    ensures Split(Join([c], xs), c) == xs
    decreases |xs|
  {
    if |xs| == 1 {
      SplitNoSeparator(xs[0], c);
    } else {
      JoinSplit(xs[1..], c);
      assert Join([c], xs) == xs[0] + [c] + Join([c], xs[1..]);
      SplitPrefix(xs[0], Join([c], xs[1..]), c);
      assert [xs[0]] + xs[1..] == xs;
    }
  }

  // ---------------------------------------------------------------------------
  // str.strip() (ASCII whitespace and the Latin-1 spaces)
  // ---------------------------------------------------------------------------

  predicate IsSpace(c: char) {
    c == ' ' || ('\t' <= c <= '\r') || ('\U{001C}' <= c <= '\U{001F}') || c == '\U{0085}' || c == '\U{00A0}'
  }

  /** How many white-space characters `s` starts with. */
  function LeadingSpace(s: string): (n: nat)
    ensures n <= |s|
    ensures forall i :: 0 <= i < n ==> IsSpace(s[i])
    ensures n < |s| ==> !IsSpace(s[n])
    decreases |s|
  {
    if |s| > 0 && IsSpace(s[0]) then 1 + LeadingSpace(s[1..]) else 0
  }

  /** How many white-space characters `s` ends with. */
  function TrailingSpace(s: string): (n: nat)
    ensures n <= |s|
    ensures forall i :: |s| - n <= i < |s| ==> IsSpace(s[i])
    ensures n < |s| ==> !IsSpace(s[|s| - n - 1])
    decreases |s|
  {
    if |s| > 0 && IsSpace(s[|s| - 1]) then 1 + TrailingSpace(s[..|s| - 1]) else 0
  }

  /** `s.lstrip()`: drops the white space in front, and nothing else. */
  function StripLeft(s: string): (r: string)
    ensures |r| <= |s| && s[|s| - |r|..] == r
    ensures forall i :: 0 <= i < |s| - |r| ==> IsSpace(s[i])
    ensures |r| > 0 ==> !IsSpace(r[0])
  {
    s[LeadingSpace(s)..]
  }

  /** `s.rstrip()`: drops the white space at the end, and nothing else. */
  function StripRight(s: string): (r: string)
    ensures |r| <= |s| && s[..|r|] == r
    ensures forall i :: |r| <= i < |s| ==> IsSpace(s[i])
    ensures |r| > 0 ==> !IsSpace(r[|r| - 1])
  {
    s[..|s| - TrailingSpace(s)]
  }

  /** `s.strip()` */
  function Strip(s: string): (r: string)
    ensures |r| <= |s|
    ensures |r| > 0 ==> !IsSpace(r[0]) && !IsSpace(r[|r| - 1])
  {
    StripRight(StripLeft(s))
  }

  /**
   * `s.strip()` is the slice of `s` left once the white space at both ends is dropped:
   * everything in front of it and after it is white space.
   */
  lemma {:induction false} StripSlice(s: string)
    ensures var r := Strip(s); var k := |s| - |StripLeft(s)|;
      k + |r| <= |s| && r == s[k..k + |r|] &&
      (forall i :: 0 <= i < k ==> IsSpace(s[i])) &&
      (forall i :: k + |r| <= i < |s| ==> IsSpace(s[i]))
  {
    var t := StripLeft(s);
    PrefixOfSuffix(s, t, StripRight(t));
  }

  /**
   * A prefix `r` of a suffix `t` of `s`, with white space in front of `t` in `s` and after `r` in
   * `t`, is the slice of `s` where it sits, with only white space around it.
   */
  lemma {:induction false} PrefixOfSuffix(s: string, t: string, r: string)
    requires |t| <= |s| && s[|s| - |t|..] == t && |r| <= |t| && t[..|r|] == r
    requires forall i :: 0 <= i < |s| - |t| ==> IsSpace(s[i])
    requires forall i :: |r| <= i < |t| ==> IsSpace(t[i])
    ensures var k := |s| - |t|;
      k + |r| <= |s| && r == s[k..k + |r|] &&
      (forall i :: 0 <= i < k ==> IsSpace(s[i])) &&
      (forall i :: k + |r| <= i < |s| ==> IsSpace(s[i]))
  {
    var k := |s| - |t|;
    assert s[k..][..|r|] == s[k..k + |r|];
    forall i | k + |r| <= i < |s| ensures IsSpace(s[i]) {
      assert s[i] == s[k..][i - k] == t[i - k];
    }
  }

  /**
   * `strip` is determined by what it promises: whenever `s` is white space, then `r`, then white
   * space, and `r` neither starts nor ends with white space, `s.strip()` is `r`.
   */
  lemma StripUnique(a: string, r: string, b: string)
    requires forall i :: 0 <= i < |a| ==> IsSpace(a[i])
    requires forall i :: 0 <= i < |b| ==> IsSpace(b[i])
    requires |r| > 0 ==> !IsSpace(r[0]) && !IsSpace(r[|r| - 1])
    ensures Strip(a + r + b) == r
  {
    if |r| > 0 {
      var rb := r + b;
      assert a + r + b == a + rb;
      StripLeftUnique(a, rb);
      StripRightUnique(r, b);
    } else {
      assert a + r + b == a + b;
      AllSpaceStrip(a + b);
    }
  }

  /** The white space in front of `t` is exactly `a` when `t` does not start with white space. */
  lemma StripLeftUnique(a: string, t: string)
    requires forall i :: 0 <= i < |a| ==> IsSpace(a[i])
    requires |t| > 0 && !IsSpace(t[0])
    ensures StripLeft(a + t) == t
  {
    var s := a + t;
    assert s[|a|..] == t;
  }

  /** The white space at the end of `t + b` is exactly `b` when `t` does not end with white space. */
  lemma StripRightUnique(t: string, b: string)
    requires forall i :: 0 <= i < |b| ==> IsSpace(b[i])
    requires |t| > 0 && !IsSpace(t[|t| - 1])
    ensures StripRight(t + b) == t
  {
    var s := t + b;
    assert s[..|t|] == t;
  }

  /** `s.strip()` is empty exactly when `s` is all white space. */
  lemma AllSpaceStrip(s: string)
    ensures Strip(s) == "" <==> forall i :: 0 <= i < |s| ==> IsSpace(s[i])
  {
    if forall i :: 0 <= i < |s| ==> IsSpace(s[i]) {
      assert LeadingSpace(s) == |s|;
    }
  }

  /** Stripping twice is stripping once. */
  lemma StripIdempotent(s: string)
    ensures Strip(Strip(s)) == Strip(s)
  {
    var r := Strip(s);
    assert r == "" + r + "";
    StripUnique("", r, "");
  }

  // ---------------------------------------------------------------------------
  // Decimal numbers: str(n) and int(s)
  // ---------------------------------------------------------------------------

  predicate IsDigit(c: char) { '0' <= c <= '9' }

  function DigitChar(d: nat): (c: char)
    requires d < 10
    ensures IsDigit(c) && c as int - '0' as int == d
  {
    ('0' as int + d) as char
  }

  predicate AllDigits(s: string) {
    forall i :: 0 <= i < |s| ==> IsDigit(s[i])
  }

  /** `str(n)` for a natural number */
  function NatToString(n: nat): (r: string)
    ensures |r| > 0 && AllDigits(r)
    decreases n
  {
    if n < 10 then [DigitChar(n)] else NatToString(n / 10) + [DigitChar(n % 10)]
  }

  /** `str(i)` */
  function IntToString(i: int): (r: string)
    ensures |r| > 0
  {
    if i < 0 then "-" + NatToString(-i) else NatToString(i)
  }

  /** The value of a string of decimal digits, read most significant first. */
  function DigitsValue(s: string): nat
    requires AllDigits(s)
    decreases |s|
  {
    if |s| == 0 then 0 else DigitsValue(s[..|s| - 1]) * 10 + (s[|s| - 1] as int - '0' as int)
  }

  /** `int(s)` for an optional sign followed by one or more decimal digits; anything else raises ValueError. */
  function ParseInt(s: string): (r: Option<int>)
  {
    if |s| > 0 && (s[0] == '-' || s[0] == '+') then
      var digits := s[1..];
      if |digits| > 0 && AllDigits(digits) then
        var v: int := DigitsValue(digits);
        Some(if s[0] == '-' then -v else v)
      else None
    else if |s| > 0 && AllDigits(s) then Some(DigitsValue(s))
    else None
  }

  lemma {:induction false} NatToStringValue(n: nat)
    ensures DigitsValue(NatToString(n)) == n
    decreases n
  {
    if n >= 10 {
      NatToStringValue(n / 10);
      var s := NatToString(n);
      assert s[..|s| - 1] == NatToString(n / 10);
    }
  }

  /** `int(str(i)) == i` */
  lemma ParseIntToString(i: int)
    ensures ParseInt(IntToString(i)) == Some(i)
  {
    var s := IntToString(i);
    if i < 0 {
      var d := NatToString(-i);
      NatToStringValue(-i);
      assert s == "-" + d;
      assert s[0] == '-' && s[1..] == d;
      assert AllDigits(s[1..]) && DigitsValue(s[1..]) == -i;
    } else {
      NatToStringValue(i);
      assert IsDigit(s[0]);
      assert s[0] != '-' && s[0] != '+';
    }
  }

  /** `str` is injective on integers. */
  lemma IntToStringInjective(i: int, j: int)
    requires IntToString(i) == IntToString(j)
    ensures i == j
  {
    ParseIntToString(i);
    ParseIntToString(j);
  }
}
