/**
 * The string mutations of the header generator (_hp/hp/tools/response_header_generation.py,
 * lines 22-128): case changes, quoting and padding, one character put in front, at the end
 * or in the middle, and character replacements. Also the two functions that apply a list
 * of mutations to one header name or value and collect the distinct results in a set.
 */
module HeaderMutations {
  import opened Common
  import opened Strings

  // ---------------------------------------------------------------------------
  // randomize_casing and insert_char_middle (lines 22-30)
  // ---------------------------------------------------------------------------

  /**
   * The choices `random.choice([c.upper(), c.lower()])` makes after `random.seed(42)`:
   * choice `i` takes the upper form of character `i`. The generator is reseeded on every
   * call and a choice between two items never depends on the items, so the choices are
   * the same for every input.
   */
  type Choices = nat -> bool

  /** `randomize_casing(s)`: each character in its upper or its lower form. */
  function RandomizeCasing(s: string, rnd: Choices): (r: string)
    ensures |r| == |s|
    ensures forall i :: 0 <= i < |s| ==> r[i] == UpperChar(s[i]) || r[i] == LowerChar(s[i])
  {
    seq(|s|, i requires 0 <= i < |s| => if rnd(i) then UpperChar(s[i]) else LowerChar(s[i]))
  }

  /** Randomizing twice is randomizing once: the choices repeat and casing absorbs casing. */
  lemma RandomizeCasingIdempotent(s: string, rnd: Choices)
    ensures RandomizeCasing(RandomizeCasing(s, rnd), rnd) == RandomizeCasing(s, rnd)
  {
    var r := RandomizeCasing(s, rnd);
    forall i | 0 <= i < |s| ensures RandomizeCasing(r, rnd)[i] == r[i] {
      CaseAbsorbs(s[i]);
    }
  }

  /** A prefix is randomized the same way on its own as inside a longer string. */
  lemma RandomizeCasingPrefix(s: string, t: string, rnd: Choices)
    ensures RandomizeCasing(s + t, rnd)[..|s|] == RandomizeCasing(s, rnd)
  {
  }

  /** Randomized casing agrees with the input once both are lower-cased. */
  lemma RandomizeCasingIgnoringCase(s: string, rnd: Choices)
    ensures Lower(RandomizeCasing(s, rnd)) == Lower(s)
  {
    forall i | 0 <= i < |s| ensures Lower(RandomizeCasing(s, rnd))[i] == Lower(s)[i] {
      CaseAbsorbs(s[i]);
    }
  }

  /** `insert_char_middle(s, c)`: `c` at index `len(s) // 2`. */
  function InsertCharMiddle(s: string, c: string): (r: string)
    ensures |r| == |s| + |c|
  {
    s[..|s| / 2] + c + s[|s| / 2..]
  }

  /** The inserted text sits at the middle index and removing it gives back the input. */
  lemma InsertCharMiddleSplit(s: string, c: string)
    ensures var r := InsertCharMiddle(s, c); var m := |s| / 2;
      r[m..m + |c|] == c && r[..m] + r[m + |c|..] == s
  {
    var r := InsertCharMiddle(s, c);
    var m := |s| / 2;
    assert r[..m] == s[..m];
    assert r[m + |c|..] == s[m..];
  }

  // ---------------------------------------------------------------------------
  // The mutations (lines 39-115)
  // ---------------------------------------------------------------------------

  /** One mutation lambda of the generator. */
  datatype Mutation =
    | AllUpper | AllLower | RandomCase | LeadTrailSpace | InDoubleQuotes | InSingleQuotes
    | RemoveWhitespace | DoubleSpaces | SpaceToTab
    | Lead(s: string) | Trail(s: string) | Middle(s: string)
    | Replace(c: char, rep: string)

  /** Calling the mutation lambda on `x`. */
  function Apply(m: Mutation, x: string, rnd: Choices): string {
    match m
    case AllUpper => Upper(x)
    case AllLower => Lower(x)
    case RandomCase => RandomizeCasing(x, rnd)
    case LeadTrailSpace => " " + x + " "
    case InDoubleQuotes => "\"" + x + "\""
    case InSingleQuotes => "'" + x + "'"
    case RemoveWhitespace => ReplaceAll(x, " ", "")
    case DoubleSpaces => ReplaceAll(x, " ", "  ")
    case SpaceToTab => ReplaceAll(x, " ", "\t")
    case Lead(s) => s + x
    case Trail(s) => x + s
    case Middle(s) => InsertCharMiddle(x, s)
    case Replace(c, rep) => ReplaceAll(x, [c], rep)
  }

  /** `ascii_chars`: every character of code 0 to 127, as a one-character string. */
  const AsciiChars: seq<string> := seq(128, i requires 0 <= i < 128 => [i as char])

  /** `other_chars`: a double space, a no-break space followed by `a`, a fullwidth comma. */
  const OtherChars: seq<string> := ["  ", "\U{00A0}a", "\U{FF0C}"]

  /** The texts put in front, at the end and in the middle, in the order the lists are built. */
  const Inserted: seq<string> := AsciiChars + OtherChars

  const LeadSeqs: seq<Mutation> := seq(|Inserted|, i requires 0 <= i < |Inserted| => Lead(Inserted[i]))
  const TrailSeqs: seq<Mutation> := seq(|Inserted|, i requires 0 <= i < |Inserted| => Trail(Inserted[i]))
  const MiddleSeqs: seq<Mutation> := seq(|Inserted|, i requires 0 <= i < |Inserted| => Middle(Inserted[i]))

  /** `chars_to_replace` */
  const CharsToReplace: seq<char> := [';', ',', ':', '=', '\'', '"', '-', '_']

  /** `replace_chars`: the empty string, ASCII punctuation, and the eight curly quotation marks. */
  const ReplaceChars: seq<string> := [
    "", " ", ";", ",", ":", "=", "-", "_", "'", "\"", "`", "\U{00B4}",
    "\U{2018}", "\U{2019}", "\U{201A}", "\U{201B}", "\U{201C}", "\U{201D}", "\U{201E}", "\U{201F}"]

  /** The list without the elements equal to `x`, in order. */
  function Without(xs: seq<string>, x: string): (r: seq<string>)
    ensures forall y :: y in r <==> y in xs && y != x
    ensures |r| == |xs| - multiset(xs)[x]
    decreases |xs|
  {
    if |xs| == 0 then []
    else
      var init := xs[..|xs| - 1];
      assert xs == init + [xs[|xs| - 1]];
      Without(init, x) + (if xs[|xs| - 1] == x then [] else [xs[|xs| - 1]])
  }

  /** The replacements of one character: every replacement text except the character itself. */
  function ReplacementsOf(c: char, rps: seq<string>): (r: seq<Mutation>)
    ensures forall m :: m in r <==> m.Replace? && m.c == c && m.rep in rps && m.rep != [c]
  {
    var kept := Without(rps, [c]);
    var r := seq(|kept|, k requires 0 <= k < |kept| => Replace(c, kept[k]));
    assert forall m :: m in r ==> m.Replace? && m.rep in kept;
    assert forall rp :: rp in kept ==> Replace(c, rp) in r by {
      forall rp | rp in kept ensures Replace(c, rp) in r {
        var k :| 0 <= k < |kept| && kept[k] == rp;
        assert r[k] == Replace(c, rp);
      }
    }
    r
  }

  /** `replace_funcs`: the replacements of each character of `chars_to_replace` in turn. */
  const ReplaceFuncs: seq<Mutation> := ConcatMap(CharsToReplace, ReplacementsFor(ReplaceChars))

  /** The replacements of a character as a function of the character. */
  function ReplacementsFor(rps: seq<string>): char -> seq<Mutation> {
    c => ReplacementsOf(c, rps)
  }

  /** `general_mutations` */
  const GeneralMutations: seq<Mutation> :=
    [AllUpper, AllLower, RandomCase, LeadTrailSpace, InDoubleQuotes, InSingleQuotes,
     RemoveWhitespace, DoubleSpaces, SpaceToTab]
    + LeadSeqs + TrailSeqs + MiddleSeqs + ReplaceFuncs

  /** `basic_mutations` */
  const BasicMutations: seq<Mutation> := [AllLower, RandomCase, LeadTrailSpace]

  /** Each replacement built from `chars` and `rps` maps a character of `chars` to a different text of `rps`. */
  lemma ReplacementsFrom(chars: seq<char>, rps: seq<string>, m: Mutation)
    requires m in ConcatMap(chars, ReplacementsFor(rps))
    ensures m.Replace? && m.c in chars && m.rep in rps && m.rep != [m.c]
  {
    ConcatMapMember(chars, ReplacementsFor(rps), m);
  }

  /** No replacement maps a character to itself, and each one is a character of `chars_to_replace`. */
  lemma ReplaceFuncsNoIdentity(m: Mutation)
    requires m in ReplaceFuncs
    ensures m.Replace? && m.c in CharsToReplace && m.rep in ReplaceChars && m.rep != [m.c]
  {
    ReplacementsFrom(CharsToReplace, ReplaceChars, m);
  }

  /** Every replacement text is at most one character long. */
  lemma ReplaceCharsShort()
    ensures forall rp :: rp in ReplaceChars ==> |rp| <= 1
  {
  }

  /** Replacing a character that occurs by a different text of at most one character changes the string. */
  lemma ReplaceChanges(c: char, rp: string, x: string)
    requires |rp| <= 1 && rp != [c] && Contains(x, [c])
    ensures ReplaceAll(x, [c], rp) != x
  {
    if |rp| == 0 {
      ReplaceCharByNothing(x, c);
    } else {
      var d := rp[0];
      assert rp == [d];
      ReplaceCharByChar(x, c, d);
      var i := ContainsWitness(x, [c]);
      assert x[i] == c;
      assert ReplaceAll(x, [c], rp)[i] == d;
    }
  }

  /** A replacement changes every string in which its character occurs. */
  lemma ReplaceFuncsChange(m: Mutation, x: string, rnd: Choices)
    requires m in ReplaceFuncs && m.Replace? && Contains(x, [m.c])
    ensures Apply(m, x, rnd) != x
  {
    ReplaceFuncsNoIdentity(m);
    ReplaceCharsShort();
    ReplaceChanges(m.c, m.rep, x);
  }

  /** The three case mutations agree with the input once both are lower-cased. */
  lemma CaseMutationsIgnoringCase(m: Mutation, x: string, rnd: Choices)
    requires m == AllUpper || m == AllLower || m == RandomCase
    ensures |Apply(m, x, rnd)| == |x| && Lower(Apply(m, x, rnd)) == Lower(x)
  {
    RandomizeCasingIgnoringCase(x, rnd);
    forall i | 0 <= i < |x| ensures Lower(Upper(x))[i] == Lower(x)[i] && Lower(Lower(x))[i] == Lower(x)[i] {
      CaseAbsorbs(x[i]);
    }
  }

  /** The inserting mutations keep the input as prefix, suffix, or around the middle. */
  lemma InsertingMutations(m: Mutation, x: string, rnd: Choices)
    requires m.Lead? || m.Trail? || m.Middle?
    ensures |Apply(m, x, rnd)| == |x| + |m.s|
    ensures m.Lead? ==> Apply(m, x, rnd)[|m.s|..] == x
    ensures m.Trail? ==> Apply(m, x, rnd)[..|x|] == x
  {
    if m.Lead? {
      assert (m.s + x)[|m.s|..] == x;
    }
    if m.Trail? {
      assert (x + m.s)[..|x|] == x;
    }
  }

  // ---------------------------------------------------------------------------
  // mutate_header_name and mutate_header_value (lines 118-128)
  // ---------------------------------------------------------------------------

  /** The set of all results of the mutations on `v`. */
  function Mutants(v: string, mutations: seq<Mutation>, rnd: Choices): set<string> {
    set m | m in mutations :: Apply(m, v, rnd)
  }

  /** Each mutation adds its result to the set. */
  lemma MutantsStep(v: string, mutations: seq<Mutation>, rnd: Choices, i: nat)
    requires i < |mutations|
    ensures Mutants(v, mutations[..i + 1], rnd) == Mutants(v, mutations[..i], rnd) + {Apply(mutations[i], v, rnd)}
  {
    assert mutations[..i + 1] == mutations[..i] + [mutations[i]];
  }

  /** Duplicate results collapse: the set holds at most one result per mutation. */
  lemma {:induction false} MutantsCard(v: string, mutations: seq<Mutation>, rnd: Choices)
    ensures |Mutants(v, mutations, rnd)| <= |mutations|
    decreases |mutations|
  {
    if |mutations| > 0 {
      var n := |mutations| - 1;
      MutantsCard(v, mutations[..n], rnd);
      MutantsStep(v, mutations, rnd, n);
      assert mutations[..n + 1] == mutations;
    }
  }

  /** `mutate_header_value(header_value, mutation_list)`: a set filled by one mutation at a time. */
  method MutateHeaderValue(headerValue: string, mutationList: seq<Mutation>, rnd: Choices) returns (headerValues: set<string>)
    ensures headerValues == Mutants(headerValue, mutationList, rnd)
  {
    headerValues := {};
    var i := 0;
    while i < |mutationList|
      invariant 0 <= i <= |mutationList|
      invariant headerValues == Mutants(headerValue, mutationList[..i], rnd)
    {
      MutantsStep(headerValue, mutationList, rnd, i);
      headerValues := headerValues + {Apply(mutationList[i], headerValue, rnd)};
      i := i + 1;
    }
    assert mutationList[..i] == mutationList;
  }

  /** `mutate_header_name(header_name)`: the same over `general_mutations`. */
  method MutateHeaderName(headerName: string, rnd: Choices) returns (headerNames: set<string>)
    ensures headerNames == Mutants(headerName, GeneralMutations, rnd)
  {
    headerNames := MutateHeaderValue(headerName, GeneralMutations, rnd);
  }

  // ---------------------------------------------------------------------------
  // Iterating over the returned sets
  // ---------------------------------------------------------------------------

  /** `xs` visits every element of `s` exactly once. */
  ghost predicate Lists(xs: seq<string>, s: set<string>) {
    (forall x :: x in xs <==> x in s) && forall i, j :: 0 <= i < j < |xs| ==> xs[i] != xs[j]
  }

  /**
   * `for x in s`: the elements of a set in the order the loop visits them. String hashing is
   * randomized per process, so the model leaves that order open.
   */
  method ListSet(s: set<string>) returns (xs: seq<string>)
    ensures Lists(xs, s) && |xs| == |s|
  {
    xs := [];
    var todo := s;
    while todo != {}
      invariant todo <= s && |xs| + |todo| == |s|
      invariant forall x :: x in xs <==> x in s && x !in todo
      invariant forall i, j :: 0 <= i < j < |xs| ==> xs[i] != xs[j]
      decreases |todo|
    {
      NonEmptyHasText(todo);
      var x :| x in todo;
      xs := xs + [x];
      todo := todo - {x};
    }
  }
}
