/** The sitemap (`sitemap()`): one entry per locale and route, built by two nested loops,
    with the home route of each locale weekly at top priority and every other page monthly. */
module Sitemap {
  import opened Numerics

  datatype Frequency = Weekly | Monthly

  /** A sitemap entry; `lastModified` is the generation time, passed in. */
  datatype Entry = Entry(url: string, lastModified: int, changeFrequency: Frequency, priority: real)

  /** The site's locales, in routing order. */
  const Locales: seq<string> := ["en", "fr"]

  /** The routes listed for every locale. */
  const Routes: seq<string> := ["", "/technology", "/about", "/team", "/contact"]

  const DefaultBaseUrl: string := "https://cognitionmedical.com"

  /** The configured site address, or the default when it is unset or empty. */
  function BaseUrl(env: Option<string>): (base: string)
    ensures env.Some? && env.value != "" ==> base == env.value
    ensures env.None? || env.value == "" ==> base == DefaultBaseUrl
    ensures base != ""
  {
    if env.Some? && env.value != "" then env.value else DefaultBaseUrl
  }

  /** The entry for one locale and route. */
  function EntryFor(base: string, now: int, locale: string, route: string): Entry {
    Entry(base + "/" + locale + route, now,
          if route == "" then Weekly else Monthly,
          if route == "" then 1.0 else 0.8)
  }

  /** All routes of one locale, in route order. */
  function Row(base: string, now: int, locale: string, routes: seq<string>): (row: seq<Entry>)
    ensures |row| == |routes|
  {
    seq(|routes|, j requires 0 <= j < |routes| => EntryFor(base, now, locale, routes[j]))
  }

  /** The whole sitemap, locale by locale. */
  function Entries(base: string, now: int, locales: seq<string>, routes: seq<string>): (es: seq<Entry>)
    ensures |es| == |locales| * |routes|
    decreases |locales|
  {
    if |locales| == 0 then []
    else Entries(base, now, locales[..|locales| - 1], routes) + Row(base, now, locales[|locales| - 1], routes)
  }

  /** Builds the sitemap with the source's nested loops. */
  method BuildSitemap(env: Option<string>, now: int, locales: seq<string>, routes: seq<string>)
    returns (sitemap: seq<Entry>)
    ensures sitemap == Entries(BaseUrl(env), now, locales, routes)
  {
    var baseUrl := BaseUrl(env);
    sitemap := [];
    var i := 0;
    while i < |locales|
      invariant 0 <= i <= |locales|
      invariant sitemap == Entries(baseUrl, now, locales[..i], routes)
    {
      var locale := locales[i];
      ghost var before := sitemap;
      var j := 0;
      while j < |routes|
        invariant 0 <= j <= |routes|
        invariant sitemap == before + Row(baseUrl, now, locale, routes)[..j]
      {
        var route := routes[j];
        sitemap := sitemap + [Entry(baseUrl + "/" + locale + route, now,
                                    if route == "" then Weekly else Monthly,
                                    if route == "" then 1.0 else 0.8)];
        assert Row(baseUrl, now, locale, routes)[..j + 1]
            == Row(baseUrl, now, locale, routes)[..j] + [Row(baseUrl, now, locale, routes)[j]];
        j := j + 1;
      }
      assert Row(baseUrl, now, locale, routes)[..j] == Row(baseUrl, now, locale, routes);
      assert locales[..i + 1][..i] == locales[..i];
      i := i + 1;
    }
    assert locales[..i] == locales;
  }

  /** Position `i * m + j` of a row-major layout with `n` rows of `m` lies within it. */
  lemma IndexBound(i: nat, j: nat, n: nat, m: nat)
    requires i < n && j < m
    ensures i * m + j < n * m
  {
    assert (i + 1) * m == i * m + m;
    assert (i + 1) * m <= n * m by {
      var k := n - (i + 1);
      assert n * m == (i + 1) * m + k * m;
    }
  }

  /** Entries are locale-major: the entry at `i * |routes| + j` is route `j` of locale `i`. */
  lemma {:induction false} EntryAt(base: string, now: int, locales: seq<string>, routes: seq<string>, i: nat, j: nat)
    requires i < |locales| && j < |routes|
    ensures i * |routes| + j < |locales| * |routes|
    ensures Entries(base, now, locales, routes)[i * |routes| + j] == EntryFor(base, now, locales[i], routes[j])
    decreases |locales|
  {
    var n := |locales|;
    var m := |routes|;
    IndexBound(i, j, n, m);
    var init := locales[..n - 1];
    var front := Entries(base, now, init, routes);
    var row := Row(base, now, locales[n - 1], routes);
    assert Entries(base, now, locales, routes) == front + row;
    if i < n - 1 {
      EntryAt(base, now, init, routes, i, j);
      assert init[i] == locales[i];
    } else {
      assert i * m + j == |front| + j;
    }
  }

  /** An entry's frequency and priority: weekly at 1 exactly for a locale's home route,
      monthly at 0.8 otherwise. */
  lemma EntryRanking(base: string, now: int, locale: string, route: string)
    ensures var e := EntryFor(base, now, locale, route);
      && (e.changeFrequency == Weekly <==> route == "")
      && (e.priority == 1.0 <==> route == "")
      && (e.changeFrequency == Monthly <==> e.priority == 0.8)
  {}

  /** Locales that are distinct, non-empty and slash-free. */
  predicate GoodLocales(locales: seq<string>) {
    && (forall i :: 0 <= i < |locales| ==> locales[i] != "" && '/' !in locales[i])
    && (forall i, j :: 0 <= i < |locales| && 0 <= j < |locales| && locales[i] == locales[j] ==> i == j)
  }

  /** Routes that are distinct and either empty or start with a slash. */
  predicate GoodRoutes(routes: seq<string>) {
    && (forall j :: 0 <= j < |routes| ==> routes[j] == "" || routes[j][0] == '/')
    && (forall i, j :: 0 <= i < |routes| && 0 <= j < |routes| && routes[i] == routes[j] ==> i == j)
  }

  /** Position of the first slash in `s`, or its length when there is none. */
  function FirstSlash(s: string): (k: nat)
    ensures k <= |s|
  {
    if |s| == 0 || s[0] == '/' then 0 else 1 + FirstSlash(s[1..])
  }

  /** In a slash-free locale followed by a route, the first slash (if any) ends the locale. */
  lemma {:induction false} FirstSlashEndsLocale(l: string, r: string)
    requires '/' !in l
    requires r == "" || r[0] == '/'
    ensures FirstSlash(l + r) == |l|
    decreases |l|
  {
    if |l| > 0 {
      assert (l + r)[1..] == l[1..] + r;
      FirstSlashEndsLocale(l[1..], r);
    } else {
      assert l + r == r;
    }
  }

  /** A locale followed by a route determines both. */
  lemma UrlSuffixInjective(l1: string, r1: string, l2: string, r2: string)
    requires '/' !in l1 && '/' !in l2
    requires r1 == "" || r1[0] == '/'
    requires r2 == "" || r2[0] == '/'
    requires l1 + r1 == l2 + r2
    ensures l1 == l2 && r1 == r2
  {
    var s := l1 + r1;
    FirstSlashEndsLocale(l1, r1);
    FirstSlashEndsLocale(l2, r2);
    assert l1 == s[..|l1|] == l2;
    assert r1 == s[|l1|..] == r2;
  }

  /** With good locales and routes, an entry's url determines its locale and route, so no
      two entries share a url. */
  lemma UrlsDistinct(base: string, now: int, locales: seq<string>, routes: seq<string>, i1: nat, j1: nat, i2: nat, j2: nat)
    requires GoodLocales(locales) && GoodRoutes(routes)
    requires i1 < |locales| && i2 < |locales| && j1 < |routes| && j2 < |routes|
    ensures EntryFor(base, now, locales[i1], routes[j1]).url == EntryFor(base, now, locales[i2], routes[j2]).url
            ==> i1 == i2 && j1 == j2
  {
    var u1 := EntryFor(base, now, locales[i1], routes[j1]).url;
    var u2 := EntryFor(base, now, locales[i2], routes[j2]).url;
    if u1 == u2 {
      var k := |base + "/"|;
      assert u1[k..] == locales[i1] + routes[j1];
      assert u2[k..] == locales[i2] + routes[j2];
      UrlSuffixInjective(locales[i1], routes[j1], locales[i2], routes[j2]);
    }
  }

  /** The site's own sitemap: ten entries, each locale's home page first in its block. */
  lemma SiteSitemap(env: Option<string>, now: int)
    ensures var es := Entries(BaseUrl(env), now, Locales, Routes);
      && |es| == 10
      && es[0].url == BaseUrl(env) + "/en" && es[5].url == BaseUrl(env) + "/fr"
      && es[0].changeFrequency == Weekly && es[5].changeFrequency == Weekly
      && es[9].url == BaseUrl(env) + "/fr/contact" && es[9].priority == 0.8
  {
    var base := BaseUrl(env);
    EntryAt(base, now, Locales, Routes, 0, 0);
    EntryAt(base, now, Locales, Routes, 1, 0);
    EntryAt(base, now, Locales, Routes, 1, 4);
  }

  /** The site's locales and routes are good, so its urls are pairwise distinct. */
  lemma SiteInputsGood()
    ensures GoodLocales(Locales) && GoodRoutes(Routes)
  {
    forall i, j | 0 <= i < j < |Routes|
      ensures Routes[i] != Routes[j]
    {
      assert |Routes[i]| != |Routes[j]|;
    }
  }
}
