/**
 * The test-URL list of the desktop crawler (`get_tests` in
 * _hp/tools/crawler/utils.py): one URL per test page, three labelled URLs
 * for the framing page, and no upgrade (HSTS) page over https.
 */
module CrawlerUtils {
  import opened Common
  import opened Strings

  /** Seconds to wait for one test page. */
  const Timeout: nat := 11
  const BaseHost: string := "sub.headers.websec.saarland"
  const BaseDir: string := "_hp/tests"

  /** The test pages, in the order they are visited. */
  const Tests: seq<string> := [
    "fetch-cors.sub.html",
    "framing.sub.html",
    "fullscreen-api-pp.sub.html",
    "originAgentCluster-oac.sub.html",
    "perfAPI-tao.sub.html",
    "referrer-access-rp.sub.html",
    "script-execution-csp.sub.html",
    "subresource-loading-coep.sub.html",
    "subresource-loading-corp.sub.html",
    "subresource-loading-csp.sub.html",
    "upgrade-hsts.sub.html",
    "window-references-coop.sub.html"
  ]

  /** The labels the framing page is run with. */
  const FramingLabels: seq<string> := ["XFO", "CSP-FA", "CSPvsXFO"]

  /** The common stem of every URL the planner produces. */
  function UrlStem(scheme: string): string {
    scheme + "://" + BaseHost + "/" + BaseDir + "/"
  }

  /** The unlabelled URL of one test page. */
  function TestUrl(scheme: string, file: string, respType: string, browserId: int): string {
    UrlStem(scheme) + file + "?resp_type=" + respType + "&browser_id=" + IntToString(browserId)
  }

  /** The framing page's labelled URLs, one per label, in label order. */
  function LabelledUrls(base: string): (r: seq<string>)
    ensures |r| == |FramingLabels|
  {
    seq(|FramingLabels|, k requires 0 <= k < |FramingLabels| => base + "&label=" + FramingLabels[k])
  }

  /**
   * The URLs of one test page with unlabelled URL `base`: the labelled ones if it
   * is a framing page, then `base` unless the page is `dropped`.
   */
  function UrlsOf(base: string, framing: bool, dropped: bool): seq<string> {
    (if framing then LabelledUrls(base) else []) + (if dropped then [] else [base])
  }

  /** The URLs one entry of the test list contributes, in order. */
  function FileUrls(file: string, respType: string, browserId: int, scheme: string): seq<string> {
    UrlsOf(TestUrl(scheme, file, respType, browserId),
           Contains(file, "framing"), Contains(file, "upgrade") && scheme == "https")
  }

  /** The URLs of a list of test pages: each page's URLs, in list order. */
  function AllUrls(files: seq<string>, respType: string, browserId: int, scheme: string): seq<string>
    decreases |files|
  {
    if |files| == 0 then []
    else AllUrls(files[..|files| - 1], respType, browserId, scheme) + FileUrls(files[|files| - 1], respType, browserId, scheme)
  }

  /** One pass of the loop of `get_tests`: append the URLs of page `url`. */
  method AppendFileUrls(testUrls0: seq<string>, url: string, respType: string, browserId: int, scheme: string)
    returns (testUrls: seq<string>)
    ensures testUrls == testUrls0 + FileUrls(url, respType, browserId, scheme)
  {
    testUrls := testUrls0;
    var base := TestUrl(scheme, url, respType, browserId);
    ghost var labelled := LabelledUrls(base);
    if Contains(url, "framing") {
      for k := 0 to |FramingLabels|
        invariant testUrls == testUrls0 + labelled[..k]
      {
        assert labelled[..k + 1] == labelled[..k] + [labelled[k]];
        testUrls := testUrls + [base + "&label=" + FramingLabels[k]];
      }
      assert labelled[..|FramingLabels|] == labelled;
    }
    if Contains(url, "upgrade") && scheme == "https" {
    } else {
      testUrls := testUrls + [base];
    }
  }

  /** The loop of `get_tests` over a list of test pages. */
  method CollectUrls(files: seq<string>, respType: string, browserId: int, scheme: string) returns (testUrls: seq<string>)
    ensures testUrls == AllUrls(files, respType, browserId, scheme)
  {
    testUrls := [];
    var i := 0;
    while i < |files|
      invariant 0 <= i <= |files|
      invariant testUrls == AllUrls(files[..i], respType, browserId, scheme)
    {
      testUrls := AppendFileUrls(testUrls, files[i], respType, browserId, scheme);
      assert files[..i + 1][..i] == files[..i];
      i := i + 1;
    }
    assert files[..|files|] == files;
  }

  /** `get_tests(resp_type, browser_id, scheme)` */
  method GetTests(respType: string, browserId: int, scheme: string) returns (testUrls: seq<string>)
    ensures testUrls == AllUrls(Tests, respType, browserId, scheme)
  {
    testUrls := CollectUrls(Tests, respType, browserId, scheme);
  }

  /** The URLs of two consecutive lists are those of the first followed by those of the second. */
  lemma {:induction false} AllUrlsAppend(a: seq<string>, b: seq<string>, respType: string, browserId: int, scheme: string)
    ensures AllUrls(a + b, respType, browserId, scheme) == AllUrls(a, respType, browserId, scheme) + AllUrls(b, respType, browserId, scheme)
    decreases |b|
  {
    if |b| == 0 {
      assert a + b == a;
    } else {
      var n := |b| - 1;
      var last := FileUrls(b[n], respType, browserId, scheme);
      assert (a + b)[..|a + b| - 1] == a + b[..n];
      assert (a + b)[|a + b| - 1] == b[n];
      assert AllUrls(a + b, respType, browserId, scheme) == AllUrls(a + b[..n], respType, browserId, scheme) + last;
      AllUrlsAppend(a, b[..n], respType, browserId, scheme);
      AppendAssoc(AllUrls(a, respType, browserId, scheme), AllUrls(b[..n], respType, browserId, scheme), last);
    }
  }

  /** Every URL a page yields starts with that page's unlabelled URL. */
  lemma FileUrlStartsWithTestUrl(file: string, u: string, respType: string, browserId: int, scheme: string)
    requires u in FileUrls(file, respType, browserId, scheme)
    ensures StartsWith(u, TestUrl(scheme, file, respType, browserId))
  {
    var t := TestUrl(scheme, file, respType, browserId);
    if u != t {
      var k :| 0 <= k < |FramingLabels| && u == t + "&label=" + FramingLabels[k];
      assert u[..|t|] == t;
    }
  }

  /** Every URL starts with the stem, the name of a listed page, the response type and the browser id. */
  lemma {:induction false} UrlsStartWithTestUrl(files: seq<string>, respType: string, browserId: int, scheme: string)
    ensures forall u :: u in AllUrls(files, respType, browserId, scheme) ==>
      exists i :: 0 <= i < |files| && StartsWith(u, TestUrl(scheme, files[i], respType, browserId))
    decreases |files|
  {
    if |files| > 0 {
      var n := |files| - 1;
      UrlsStartWithTestUrl(files[..n], respType, browserId, scheme);
      forall u | u in AllUrls(files, respType, browserId, scheme)
        ensures exists i :: 0 <= i < |files| && StartsWith(u, TestUrl(scheme, files[i], respType, browserId))
      {
        if u in FileUrls(files[n], respType, browserId, scheme) {
          FileUrlStartsWithTestUrl(files[n], u, respType, browserId, scheme);
        } else {
          assert u in AllUrls(files[..n], respType, browserId, scheme);
          var i :| 0 <= i < n && StartsWith(u, TestUrl(scheme, files[..n][i], respType, browserId));
          assert files[..n][i] == files[i];
        }
      }
    }
  }

  /** A framing page's labelled URLs carry XFO, CSP-FA and CSPvsXFO in that order. */
  lemma LabelledUrlsOrder(base: string)
    ensures LabelledUrls(base) == [base + "&label=XFO", base + "&label=CSP-FA", base + "&label=CSPvsXFO"]
  {
    var labelled := LabelledUrls(base);
    assert labelled[0] == base + "&label=XFO" by { assert "&label=" + "XFO" == "&label=XFO"; }
    assert labelled[1] == base + "&label=CSP-FA" by { assert "&label=" + "CSP-FA" == "&label=CSP-FA"; }
    assert labelled[2] == base + "&label=CSPvsXFO" by { assert "&label=" + "CSPvsXFO" == "&label=CSPvsXFO"; }
  }

  /** A framing page that is not an upgrade page yields its three labelled URLs and then its unlabelled one. */
  lemma FramingUrls(file: string, respType: string, browserId: int, scheme: string)
    requires Contains(file, "framing") && !Contains(file, "upgrade")
    ensures var t := TestUrl(scheme, file, respType, browserId);
      FileUrls(file, respType, browserId, scheme)
        == [t + "&label=XFO", t + "&label=CSP-FA", t + "&label=CSPvsXFO", t]
  {
    LabelledUrlsOrder(TestUrl(scheme, file, respType, browserId));
  }

  /** An upgrade (HSTS) page that is not a framing page is dropped exactly when the scheme is https. */
  lemma UpgradeUrls(file: string, respType: string, browserId: int, scheme: string)
    requires Contains(file, "upgrade") && !Contains(file, "framing")
    ensures FileUrls(file, respType, browserId, scheme)
      == if scheme == "https" then [] else [TestUrl(scheme, file, respType, browserId)]
  {
  }

  /** A page that is neither yields its one unlabelled URL. */
  lemma PlainUrls(file: string, respType: string, browserId: int, scheme: string)
    requires !Contains(file, "framing") && !Contains(file, "upgrade")
    ensures FileUrls(file, respType, browserId, scheme) == [TestUrl(scheme, file, respType, browserId)]
  {
  }

  /** The number of URLs one page yields. */
  lemma FileUrlsLength(file: string, respType: string, browserId: int, scheme: string)
    ensures |FileUrls(file, respType, browserId, scheme)|
      == (if Contains(file, "framing") then 3 else 0) + (if Contains(file, "upgrade") && scheme == "https" then 0 else 1)
  {
  }

  // The pages other than the framing (upgrade) page never hold "fr" ("up"),
  // a few pages per lemma to keep each proof small.

  lemma PairFreePages0()
    ensures PairFree(Tests[0], 'f', 'r') && PairFree(Tests[0], 'u', 'p')
    ensures PairFree(Tests[1], 'u', 'p') && PairFree(Tests[2], 'f', 'r') && PairFree(Tests[2], 'u', 'p')
  {
  }

  lemma PairFreePages1()
    ensures PairFree(Tests[3], 'f', 'r') && PairFree(Tests[3], 'u', 'p')
    ensures PairFree(Tests[4], 'f', 'r') && PairFree(Tests[4], 'u', 'p')
  {
  }

  lemma PairFreePages2()
    ensures PairFree(Tests[5], 'f', 'r') && PairFree(Tests[5], 'u', 'p')
    ensures PairFree(Tests[6], 'f', 'r') && PairFree(Tests[6], 'u', 'p')
  {
  }

  lemma PairFreePages3()
    ensures PairFree(Tests[7], 'f', 'r') && PairFree(Tests[7], 'u', 'p')
  {
  }

  lemma PairFreePages4()
    ensures PairFree(Tests[8], 'f', 'r') && PairFree(Tests[8], 'u', 'p')
  {
  }

  lemma PairFreePages5()
    ensures PairFree(Tests[9], 'f', 'r') && PairFree(Tests[9], 'u', 'p')
    ensures PairFree(Tests[10], 'f', 'r')
  {
  }

  lemma PairFreePages6()
    ensures PairFree(Tests[11], 'f', 'r') && PairFree(Tests[11], 'u', 'p')
  {
  }

  /** Only the second page is a framing page and only the eleventh an upgrade page. */
  lemma PageKinds()
    ensures forall j :: 0 <= j < |Tests| ==> (Contains(Tests[j], "framing") <==> j == 1)
    ensures forall j :: 0 <= j < |Tests| ==> (Contains(Tests[j], "upgrade") <==> j == 10)
  {
    PairFreePages0();
    PairFreePages1();
    PairFreePages2();
    PairFreePages3();
    PairFreePages4();
    PairFreePages5();
    PairFreePages6();
    forall j | 0 <= j < |Tests|
      ensures Contains(Tests[j], "framing") <==> j == 1
      ensures Contains(Tests[j], "upgrade") <==> j == 10
    {
      PageKind(Tests[j], j == 1, j == 10);
    }
  }

  /** A page's kind follows from whether it starts with the pattern or is free of the pattern's first pair. */
  lemma PageKind(s: string, framing: bool, upgrade: bool)
    requires framing ==> StartsWith(s, "framing")
    requires !framing ==> PairFree(s, 'f', 'r')
    requires upgrade ==> StartsWith(s, "upgrade")
    requires !upgrade ==> PairFree(s, 'u', 'p')
    ensures Contains(s, "framing") <==> framing
    ensures Contains(s, "upgrade") <==> upgrade
  {
    if framing { ContainsAt(s, "framing", 0); } else { NotContainsByPair(s, "framing"); }
    if upgrade { ContainsAt(s, "upgrade", 0); } else { NotContainsByPair(s, "upgrade"); }
  }

  /** The twelve pages give fifteen URLs over http and fourteen over https. */
  lemma GetTestsCount(respType: string, browserId: int, scheme: string)
    ensures |AllUrls(Tests, respType, browserId, scheme)| == if scheme == "https" then 14 else 15
  {
    PageKinds();
    CountUrls(Tests, |Tests|, respType, browserId, scheme);
    assert Tests[..|Tests|] == Tests;
  }

  /**
   * The URL count of the first `k` pages of a twelve-page list whose second page alone is a
   * framing page and whose eleventh page alone is an upgrade page.
   */
  lemma {:induction false} CountUrls(files: seq<string>, k: nat, respType: string, browserId: int, scheme: string)
    requires k <= |files| == 12
    requires forall j :: 0 <= j < |files| ==> (Contains(files[j], "framing") <==> j == 1)
    requires forall j :: 0 <= j < |files| ==> (Contains(files[j], "upgrade") <==> j == 10)
    ensures |AllUrls(files[..k], respType, browserId, scheme)|
      == k + (if k >= 2 then 3 else 0) - (if k >= 11 && scheme == "https" then 1 else 0)
  {
    if k > 0 {
      CountUrls(files, k - 1, respType, browserId, scheme);
      assert files[..k][..k - 1] == files[..k - 1];
      FileUrlsLength(files[k - 1], respType, browserId, scheme);
    }
  }
}
