/**
 * Properties of the request builder: query and matrix parameters are
 * overwritten by name and independent of each other, cookies accumulate in
 * call order, and a build reflects the last value written to each part.
 */
module HttpRequestProperties {
  import opened Js
  import opened HttpRequests

  // ---------------------------------------------------------------------
  // Query and matrix parameters
  // ---------------------------------------------------------------------

  /** Setting the same query parameter twice keeps only the second value. */
  lemma QueryOverwrites<K, H, P>(b: HttpRequestBuilder<K, H, P>, name: string, v1: string, v2: string)
    ensures WithQuery(WithQuery(b, name, v1), name, v2) == WithQuery(b, name, v2)
  {
  }

  /** Query parameters under different names may be set in either order. */
  lemma QueryDistinctNamesCommute<K, H, P>(b: HttpRequestBuilder<K, H, P>, n1: string, v1: string, n2: string, v2: string)
    requires n1 != n2
    ensures WithQuery(WithQuery(b, n1, v1), n2, v2) == WithQuery(WithQuery(b, n2, v2), n1, v1)
  {
  }

  /** Setting the same matrix parameter twice keeps only the second value. */
  lemma MatrixOverwrites<K, H, P>(b: HttpRequestBuilder<K, H, P>, name: string, v1: string, v2: string)
    ensures WithMatrix(WithMatrix(b, name, v1), name, v2) == WithMatrix(b, name, v2)
  {
  }

  /** Query and matrix parameters live in separate maps: a query step and a
      matrix step may be taken in either order, even under the same name. */
  lemma QueryAndMatrixAreIndependent<K, H, P>(b: HttpRequestBuilder<K, H, P>, qn: string, qv: string, mn: string, mv: string)
    ensures WithMatrix(WithQuery(b, qn, qv), mn, mv) == WithQuery(WithMatrix(b, mn, mv), qn, qv)
    ensures WithMatrix(WithQuery(b, qn, qv), mn, mv).queryParameters[qn] == qv
    ensures WithMatrix(WithQuery(b, qn, qv), mn, mv).matrixParameters[mn] == mv
  {
  }

  // ---------------------------------------------------------------------
  // Cookies
  // ---------------------------------------------------------------------

  /** Two `withCookies` calls append their cookies in call order. */
  lemma CookiesAccumulateInCallOrder<K, H, P>(b: HttpRequestBuilder<K, H, P>, xs: seq<K>, ys: seq<K>)
    ensures WithCookies(WithCookies(b, xs), ys) == WithCookies(b, xs + ys)
  {
    var before := b.cookies.OrElse([]);
    assert before + xs + ys == before + (xs + ys);
  }

  /** `withCookie(c)` is `withCookies(c)`. */
  lemma WithCookieIsSingleWithCookies<K, H, P>(b: HttpRequestBuilder<K, H, P>, c: K)
    ensures WithCookie(b, c) == WithCookies(b, [c])
  {
  }

  /** The builder after one `withCookie` call per cookie, in order. */
  function AddCookiesOneByOne<K, H, P>(b: HttpRequestBuilder<K, H, P>, cs: seq<K>): HttpRequestBuilder<K, H, P>
    decreases |cs|
  {
    if cs == [] then b else AddCookiesOneByOne(WithCookie(b, cs[0]), cs[1..])
  }

  /** Adding cookies one at a time is one `withCookies` call with all of them,
      unless there are none and the builder holds no list yet: then the
      single call still creates an empty list while the loop creates none. */
  lemma {:induction false} OneByOneIsWithCookies<K, H, P>(b: HttpRequestBuilder<K, H, P>, cs: seq<K>)
    ensures |cs| > 0 || b.cookies.Defined? ==> AddCookiesOneByOne(b, cs) == WithCookies(b, cs)
    ensures |cs| == 0 && b.cookies.Undefined? ==> AddCookiesOneByOne(b, cs).cookies.Undefined?
    ensures |cs| == 0 && b.cookies.Undefined? ==> WithCookies(b, cs).cookies == Defined([])
    decreases |cs|
  {
    if cs == [] {
      if b.cookies.Defined? {
        assert b.cookies.value + [] == b.cookies.value;
      }
    } else {
      var b' := WithCookie(b, cs[0]);
      OneByOneIsWithCookies(b', cs[1..]);
      assert b'.cookies.Defined?;
      CookiesAccumulateInCallOrder(b, [cs[0]], cs[1..]);
      assert [cs[0]] + cs[1..] == cs;
    }
  }

  /** Every cookie held before a `withCookies` call is still held, at the same position. */
  lemma CookiesAreNeverDropped<K, H, P>(b: HttpRequestBuilder<K, H, P>, cs: seq<K>, i: nat)
    requires b.cookies.Defined? && i < |b.cookies.value|
    ensures i < |WithCookies(b, cs).cookies.value|
    ensures WithCookies(b, cs).cookies.value[i] == b.cookies.value[i]
  {
  }

  // ---------------------------------------------------------------------
  // Building
  // ---------------------------------------------------------------------

  /** A request built after a `with` step carries what that step wrote, and
      the other parts as they were before it. */
  lemma BuildSeesLastWrite<K, H, P>(b: HttpRequestBuilder<K, H, P>, name: string, value: string, m: string, cs: seq<K>)
    ensures Build(WithQuery(b, name, value)) == Build(b).(queryParameters := b.queryParameters[name := value])
    ensures Build(WithMatrix(b, name, value)) == Build(b).(matrixParameters := b.matrixParameters[name := value])
    ensures Build(WithCookies(b, cs)) == Build(b).(cookies := Defined(b.cookies.OrElse([]) + cs))
    ensures Build(WithMethod(b, m)) == Build(b).(httpMethod := Defined(m))
    ensures Build(WithPath(b, m)) == Build(b).(path := Defined(m))
  {
  }

  /** `a=1` then `a=2` leaves one query entry, `a -> 2`; two `withCookie`
      calls leave both cookies in call order. */
  lemma OverwriteAndAccumulateExample<K, H, P>(base: MessageParts<H, P>, c1: K, c2: K)
    ensures var b: HttpRequestBuilder<K, H, P> := WithQuery(WithQuery(Of(base, "GET", "/"), "a", "1"), "a", "2");
            Build(b).queryParameters == map["a" := "2"]
    ensures var b: HttpRequestBuilder<K, H, P> := WithCookie(WithCookie(Of(base, "GET", "/"), c1), c2);
            Build(b).cookies == Defined([c1, c2])
  {
    var q: HttpRequestBuilder<K, H, P> := WithQuery(WithQuery(Of(base, "GET", "/"), "a", "1"), "a", "2");
    assert q.queryParameters == map["a" := "2"];
    var one: HttpRequestBuilder<K, H, P> := WithCookie(Of(base, "GET", "/"), c1);
    assert one.cookies.value == [c1];
    assert WithCookie(one, c2).cookies.value == [c1] + [c2] == [c1, c2];
  }
}
