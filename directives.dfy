/** The directive lists handed to the two backends as `params pool`. */
module Directives {
  import opened Wrappers
  import opened Attributes

  const SslHelloChk: string := "option ssl-hello-chk"
  const HttpchkPrefix: string := "option httpchk "
  const CookiePrefix: string := "cookie "

  /** A health-check directive, whatever its path. */
  predicate IsHttpchk(line: string) {
    HttpchkPrefix <= line
  }

  /** A session-cookie directive, whatever its name. */
  predicate IsCookie(line: string) {
    CookiePrefix <= line
  }

  /** The pool list of a backend: `option ssl-hello-chk` for HTTPS only, then
      the health check when its path is set, then the cookie when it is set.
      It holds one entry per switched-on directive and nothing else. */
  function BackendDirectives(v: Variant, httpchk: Attr, cookie: Attr): (pool: seq<string>)
    ensures |pool| == (if v == Https then 1 else 0) + (if httpchk.Some? then 1 else 0)
                      + (if cookie.Some? then 1 else 0)
    ensures forall line | line in pool :: line == SslHelloChk || IsHttpchk(line) || IsCookie(line)
  {
    (if v == Https then [SslHelloChk] else [])
    + (if httpchk.Some? then [HttpchkPrefix + httpchk.value] else [])
    + (if cookie.Some? then [CookiePrefix + cookie.value] else [])
  }

  /** The three kinds of directive never look like one another. */
  lemma KindsDistinct(line: string)
    ensures line == SslHelloChk ==> !IsHttpchk(line) && !IsCookie(line)
    ensures IsHttpchk(line) ==> !IsCookie(line)
  {
    if line == SslHelloChk {
      assert line[7] != HttpchkPrefix[7];
      assert line[0] != CookiePrefix[0];
    }
    if IsHttpchk(line) {
      assert line[0] != CookiePrefix[0];
    }
  }

  /** The HTTPS list always starts with `option ssl-hello-chk`; the HTTP list
      never contains it. */
  lemma SslHelloChkFirst(v: Variant, httpchk: Attr, cookie: Attr)
    ensures var pool := BackendDirectives(v, httpchk, cookie);
      && (v == Https ==> |pool| > 0 && pool[0] == SslHelloChk)
      && (v == Http ==> SslHelloChk !in pool)
  {
    var pool := BackendDirectives(v, httpchk, cookie);
    if v == Http {
      forall i | 0 <= i < |pool| ensures pool[i] != SslHelloChk {
        KindsDistinct(SslHelloChk);
        assert IsHttpchk(pool[i]) || IsCookie(pool[i]);
      }
    }
  }

  /** A health-check directive is present exactly when the path is set, and
      then it carries that path. */
  lemma HttpchkIffSet(v: Variant, httpchk: Attr, cookie: Attr, path: string)
    ensures HttpchkPrefix + path in BackendDirectives(v, httpchk, cookie) <==> httpchk == Some(path)
  {
    var pool := BackendDirectives(v, httpchk, cookie);
    var line := HttpchkPrefix + path;
    KindsDistinct(line);
    KindsDistinct(SslHelloChk);
    if line in pool {
      var i :| 0 <= i < |pool| && pool[i] == line;
      assert IsHttpchk(line);
      assert httpchk.Some? && pool[i] == HttpchkPrefix + httpchk.value;
      assert path == line[|HttpchkPrefix|..] == httpchk.value;
    }
  }

  /** A cookie directive is present exactly when the cookie name is set, and
      then it carries that name. */
  lemma CookieIffSet(v: Variant, httpchk: Attr, cookie: Attr, name: string)
    ensures CookiePrefix + name in BackendDirectives(v, httpchk, cookie) <==> cookie == Some(name)
  {
    var pool := BackendDirectives(v, httpchk, cookie);
    var line := CookiePrefix + name;
    assert IsCookie(line);
    if line in pool {
      var i :| 0 <= i < |pool| && pool[i] == line;
      KindsDistinct(SslHelloChk);
      if httpchk.Some? {
        KindsDistinct(HttpchkPrefix + httpchk.value);
      }
      assert cookie.Some? && pool[i] == CookiePrefix + cookie.value;
      assert name == line[|CookiePrefix|..] == cookie.value;
    }
  }

  /** Every health-check directive comes before every cookie directive. */
  lemma HttpchkBeforeCookie(v: Variant, httpchk: Attr, cookie: Attr)
    ensures var pool := BackendDirectives(v, httpchk, cookie);
      forall i, j | 0 <= i < |pool| && 0 <= j < |pool| && IsHttpchk(pool[i]) && IsCookie(pool[j]) :: i < j
  {
    var pool := BackendDirectives(v, httpchk, cookie);
    KindsDistinct(SslHelloChk);
    if httpchk.Some? {
      KindsDistinct(HttpchkPrefix + httpchk.value);
    }
    if cookie.Some? {
      KindsDistinct(CookiePrefix + cookie.value);
      assert !IsHttpchk(CookiePrefix + cookie.value) by {
        assert (CookiePrefix + cookie.value)[0] != HttpchkPrefix[0];
      }
    }
  }

  /** The HTTPS list is the HTTP list built from the same attributes with
      `option ssl-hello-chk` in front. */
  lemma HttpsExtendsHttp(httpchk: Attr, cookie: Attr)
    ensures BackendDirectives(Https, httpchk, cookie) == [SslHelloChk] + BackendDirectives(Http, httpchk, cookie)
  {
  }

  /** With a cookie set, both lists end with the same cookie directive,
      whatever health-check paths the two variants use. */
  lemma CookieLineShared(httpchk: Attr, sslHttpchk: Attr, cookie: Attr)
    requires cookie.Some?
    ensures var http := BackendDirectives(Http, httpchk, cookie);
      var https := BackendDirectives(Https, sslHttpchk, cookie);
      |http| > 0 && http[|http| - 1] == https[|https| - 1] == CookiePrefix + cookie.value
  {
  }
}
