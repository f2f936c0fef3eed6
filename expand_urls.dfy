/**
 * `expand_urls` of the header generator (_hp/hp/tools/response_header_generation.py,
 * lines 343-378): every value holding the placeholder `<!URL!>` is replaced by one copy per
 * URL, origin or site variation of the test hosts; other values pass through once, in order.
 */
module ExpandUrls {
  import opened Common
  import opened Strings

  /** `URL_REP` */
  const UrlRep: string := "<!URL!>"

  /**
   * `all_replacements`, built from the `browser_host` and the `alt` host of the WPT
   * configuration, which this model takes as parameters.
   */
  function AllReplacements(baseHost: string, altHost: string): (r: seq<string>)
    ensures |r| == 15 && r[14] == "https://" + altHost
    ensures forall i :: 0 <= i < 14 && i != 2 ==> Contains(r[i], baseHost)
    ensures r[2] == Upper("HTTPS://SUB." + baseHost)
  {
    var site := "sub." + baseHost;
    var originS := "https://sub." + baseHost;
    var originSp := originS + ":443";
    var r := [site, originS, Upper("HTTPS://SUB." + baseHost), originS + "/abc/", originS + "/?a=a",
      "http://sub." + baseHost, originSp, originS + "/", originSp + "/", "https://" + baseHost,
      "https://sub.sub." + baseHost, "*." + baseHost, "*.sub." + baseHost, "https://*.sub." + baseHost,
      "https://" + altHost];
    HostIn("sub.", baseHost);
    HostIn("https://sub.", baseHost);
    HostIn("http://sub.", baseHost);
    HostIn("https://", baseHost);
    HostIn("https://sub.sub.", baseHost);
    HostIn("*.", baseHost);
    HostIn("*.sub.", baseHost);
    HostIn("https://*.sub.", baseHost);
    ContainsPrefix(originS, "/abc/", baseHost);
    ContainsPrefix(originS, "/?a=a", baseHost);
    ContainsPrefix(originS, ":443", baseHost);
    ContainsPrefix(originS, "/", baseHost);
    ContainsPrefix(originSp, "/", baseHost);
    r
  }

  /** A host written after a scheme or a label prefix occurs in the result. */
  lemma HostIn(prefix: string, host: string)
    ensures Contains(prefix + host, host)
  {
    assert StartsWith(host, host);
    ContainsSuffix(prefix, host, host);
  }

  /** The values one input value expands into. */
  function ExpansionsOf(value: string, reps: seq<string>): (r: seq<string>)
    ensures !Contains(value, UrlRep) ==> r == [value]
    ensures Contains(value, UrlRep) ==> (|r| == |reps|
      && forall i :: 0 <= i < |reps| ==> r[i] == ReplaceAll(value, UrlRep, reps[i]) && Contains(r[i], reps[i]))
  {
    if !Contains(value, UrlRep) then [value]
    else
      var r := seq(|reps|, i requires 0 <= i < |reps| => ReplaceAll(value, UrlRep, reps[i]));
      assert forall i :: 0 <= i < |reps| ==> Contains(r[i], reps[i]) by {
        forall i | 0 <= i < |reps| ensures Contains(r[i], reps[i]) {
          ReplaceAllInserts(value, UrlRep, reps[i]);
        }
      }
      r
  }

  function ExpansionsFor(reps: seq<string>): string -> seq<string> {
    v => ExpansionsOf(v, reps)
  }

  /** The result of `expand_urls(other_values)` for the replacement list `reps`. */
  function Expanded(values: seq<string>, reps: seq<string>): seq<string> {
    ConcatMap(values, ExpansionsFor(reps))
  }

  /** `expand_urls` */
  method ExpandValues(otherValues: seq<string>, reps: seq<string>) returns (returnValues: seq<string>)
    ensures returnValues == Expanded(otherValues, reps)
  {
    returnValues := [];
    var f := ExpansionsFor(reps);
    var k := 0;
    while k < |otherValues|
      invariant 0 <= k <= |otherValues|
      invariant returnValues == ConcatMap(otherValues[..k], f)
    {
      var value := otherValues[k];
      ghost var before := returnValues;
      if !Contains(value, UrlRep) {
        returnValues := returnValues + [value];
        assert f(value) == [value];
      } else {
        var j := 0;
        while j < |reps|
          invariant 0 <= j <= |reps|
          invariant returnValues == before + f(value)[..j]
        {
          returnValues := returnValues + [ReplaceAll(value, UrlRep, reps[j])];
          PrefixExtend(before, f(value), j);
          j := j + 1;
        }
        assert f(value)[..j] == f(value);
      }
      assert returnValues == before + f(value);
      ConcatMapExtend([], otherValues, f, k);
      assert [] + ConcatMap(otherValues[..k], f) == ConcatMap(otherValues[..k], f);
      assert returnValues == ConcatMap(otherValues[..k + 1], f);
      k := k + 1;
    }
    assert otherValues[..k] == otherValues;
  }

  /** A value comes out of the expansion exactly when it is a placeholder-free input or an input with each placeholder replaced by one URL. */
  lemma ExpandedMember(values: seq<string>, reps: seq<string>, x: string)
    ensures x in Expanded(values, reps) <==> exists i :: (0 <= i < |values| && (
      (!Contains(values[i], UrlRep) && x == values[i])
      || (Contains(values[i], UrlRep) && exists j :: 0 <= j < |reps| && x == ReplaceAll(values[i], UrlRep, reps[j]))))
  {
    ConcatMapMember(values, ExpansionsFor(reps), x);
  }

  /** How many values `expand_urls` returns: one per plain value, `|reps|` per value with the placeholder. */
  function ExpandedSize(values: seq<string>, n: nat): nat
    decreases |values|
  {
    if |values| == 0 then 0
    else ExpandedSize(values[..|values| - 1], n) + (if Contains(values[|values| - 1], UrlRep) then n else 1)
  }

  lemma {:induction false} ExpandedCount(values: seq<string>, reps: seq<string>)
    ensures |Expanded(values, reps)| == ExpandedSize(values, |reps|)
    decreases |values|
  {
    if |values| > 0 {
      ExpandedCount(values[..|values| - 1], reps);
    }
  }

  /** Without any placeholder the list comes back as it was. */
  lemma {:induction false} ExpandedPlain(values: seq<string>, reps: seq<string>)
    requires forall i :: 0 <= i < |values| ==> !Contains(values[i], UrlRep)
    ensures Expanded(values, reps) == values
    decreases |values|
  {
    if |values| > 0 {
      var init := values[..|values| - 1];
      ExpandedPlain(init, reps);
      assert init + [values[|values| - 1]] == values;
    }
  }

  /** The module's starting `other_values`, `["", "INVALID"]`, hold no placeholder and so stay as they are. */
  lemma DefaultOtherValues(reps: seq<string>)
    ensures Expanded(["", "INVALID"], reps) == ["", "INVALID"]
  {
    assert !Contains("", UrlRep);
    NotContainsShort("INVALID", UrlRep);
    assert ["", "INVALID"][1] == "INVALID";
    ExpandedPlain(["", "INVALID"], reps);
  }

  /** A string no longer than the pattern, and different from it, does not contain it. */
  lemma {:induction false} NotContainsShort(s: string, p: string)
    requires |s| < |p| || (|s| == |p| && s != p)
    ensures !Contains(s, p)
    decreases |s|
  {
    if |s| > 0 {
      NotContainsShort(s[1..], p);
      if |s| == |p| {
        assert s[..|p|] == s;
      }
    }
  }
}
