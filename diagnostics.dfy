/**
 * The two computations inside the toolbar's diagnostic actions that are
 * values rather than browser side effects: `getPageLoadTime` and the cookie
 * count of `showPageInfo`.
 */
module ToolbarDiagnostics {
  import opened Options
  import opened JsStrings

  /** The two fields of `window.performance.timing` that `getPageLoadTime` reads, in milliseconds. */
  datatype NavigationTiming = NavigationTiming(navigationStart: int, loadEventEnd: int)

  /** A load time that was measured, is still being measured, or cannot be measured. */
  datatype LoadTime = Measured(ms: nat) | Calculating | Unsupported

  /**
   * The decision of `getPageLoadTime`: without the timing facility the time is
   * unsupported; with it, a positive difference is the load time, and anything
   * else (the load event has not ended yet) means it is still being computed.
   */
  function PageLoadTime(timing: Option<NavigationTiming>): (t: LoadTime)
    ensures t == Unsupported <==> timing.None?
    ensures t.Measured? <==> timing.Some? && timing.value.loadEventEnd - timing.value.navigationStart > 0
    ensures t.Measured? ==> t.ms > 0 && t.ms == timing.value.loadEventEnd - timing.value.navigationStart
  {
    match timing
    case None => Unsupported
    case Some(nav) =>
      var loadTime := nav.loadEventEnd - nav.navigationStart;
      if loadTime > 0 then Measured(loadTime) else Calculating
  }

  /** The text shown for a load time: `<n>ms`, "计算中..." (computing) or "不支持" (unsupported). */
  function LoadTimeText(t: LoadTime): string {
    match t
    case Measured(ms) => Decimal(ms) + "ms"
    case Calculating => "计算中..."
    case Unsupported => "不支持"
  }

  /**
   * `getPageLoadTime()`: "不支持" without the timing facility, the positive
   * difference of the two timestamps followed by `ms`, or "计算中..." while
   * the load event has not ended.
   */
  function GetPageLoadTime(timing: Option<NavigationTiming>): (text: string)
    ensures timing.None? ==> text == "不支持"
    ensures timing.Some? && timing.value.loadEventEnd - timing.value.navigationStart > 0 ==>
              text == Decimal(timing.value.loadEventEnd - timing.value.navigationStart) + "ms"
    ensures timing.Some? && timing.value.loadEventEnd - timing.value.navigationStart <= 0 ==> text == "计算中..."
  {
    LoadTimeText(PageLoadTime(timing))
  }

  /** Distinct load times read differently, so "not measured" can never be mistaken for a measurement. */
  lemma LoadTimeTextInjective(a: LoadTime, b: LoadTime)
    requires LoadTimeText(a) == LoadTimeText(b)
    ensures a == b
  {
    var s := LoadTimeText(a);
    if a.Measured? || b.Measured? {
      // a measurement ends in "ms"; the other two texts do not
      assert s[|s| - 1] == 's';
      if a.Measured? && b.Measured? {
        assert Decimal(a.ms) == s[..|s| - 2] == Decimal(b.ms);
        DecimalInjective(a.ms, b.ms);
      }
    }
  }

  /** The reported load time is never a fabricated zero, and is unsupported exactly when the timing facility is missing. */
  lemma NoFabricatedZero(timing: Option<NavigationTiming>)
    ensures GetPageLoadTime(timing) != "0ms"
    ensures GetPageLoadTime(timing) == "不支持" <==> timing.None?
  {
    assert "0ms" == LoadTimeText(Measured(0));
    if GetPageLoadTime(timing) == "0ms" {
      LoadTimeTextInjective(PageLoadTime(timing), Measured(0));
    }
    if GetPageLoadTime(timing) == "不支持" {
      LoadTimeTextInjective(PageLoadTime(timing), Unsupported);
    }
  }

  // ---------------------------------------------------------------------------
  // the cookie count of showPageInfo

  /** `document.cookie` for the given `name=value` pairs: joined by `"; "`, empty when there are none. */
  function CookieString(pairs: seq<string>): string {
    if pairs == [] then "" else Join(CookieParts(pairs), ';')
  }

  /** The pieces of a cookie string between the `;` separators: every pair after the first keeps its leading space. */
  function CookieParts(pairs: seq<string>): (parts: seq<string>)
    requires pairs != []
    ensures |parts| == |pairs| && parts[0] == pairs[0]
    ensures forall k :: 0 < k < |pairs| ==> parts[k] == " " + pairs[k]
  {
    seq(|pairs|, k requires 0 <= k < |pairs| => if k == 0 then pairs[0] else " " + pairs[k])
  }

  /** What a browser puts in `document.cookie`: non-empty pairs without `;`. */
  predicate WellFormedPairs(pairs: seq<string>) {
    forall k :: 0 <= k < |pairs| ==> pairs[k] != "" && ';' !in pairs[k]
  }

  /** `document.cookie.split(';').length - 1`, the count `showPageInfo` reports: the number of separators. */
  function CookieCountAsWritten(cookie: string): (n: int)
    ensures n == Count(cookie, ';')
  {
    |Split(cookie, ';')| - 1
  }

  /** The number of cookies: no pieces for an empty cookie string, otherwise one per `;`-separated piece. */
  function CookieCount(cookie: string): (n: nat)
    ensures n == 0 <==> cookie == ""
    ensures cookie != "" ==> n == Count(cookie, ';') + 1
  {
    if cookie == "" then 0 else |Split(cookie, ';')|
  }

  lemma {:induction false} SplitCookieString(pairs: seq<string>)
    requires pairs != [] && WellFormedPairs(pairs)
    ensures |Split(CookieString(pairs), ';')| == |pairs|
    ensures CookieString(pairs) != ""
  {
    var parts := CookieParts(pairs);
    forall k | 0 <= k < |parts|
      ensures ';' !in parts[k]
    {
      if k > 0 {
        assert parts[k] == " " + pairs[k];
      }
    }
    SplitJoin(parts, ';');
    if |parts| > 1 {
      assert CookieString(pairs) == parts[0] + [';'] + Join(parts[1..], ';');
    }
    assert |CookieString(pairs)| >= |pairs[0]| > 0;
  }

  /** The corrected count is the number of cookies. */
  lemma CookieCountIsNumberOfCookies(pairs: seq<string>)
    requires WellFormedPairs(pairs)
    ensures CookieCount(CookieString(pairs)) == |pairs|
  {
    if pairs != [] {
      SplitCookieString(pairs);
    }
  }

  /** The count as written is one short whenever there is at least one cookie. */
  lemma CookieCountAsWrittenOneShort(pairs: seq<string>)
    requires pairs != [] && WellFormedPairs(pairs)
    ensures CookieCountAsWritten(CookieString(pairs)) == |pairs| - 1
  {
    SplitCookieString(pairs);
  }

  /** A page with the single cookie `a=1` is reported to have no cookies. */
  lemma SingleCookieReportedAsNone()
    ensures CookieCountAsWritten(CookieString(["a=1"])) == 0
    ensures CookieCount(CookieString(["a=1"])) == 1
  {
  }
}
