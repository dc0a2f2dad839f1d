/** The site header (`Header`): the locale taken from the pathname, the five navigation links
    under that locale, which link is highlighted, and the scrolled / mobile-menu state with
    the body-scroll lock that follows the menu. */
module Header {

  /** JavaScript's `s.split(sep)` for a one-character separator: the pieces between
      separators, including empty ones, so there is always one more piece than separators. */
  function Split(s: string, sep: char): (parts: seq<string>)
    ensures |parts| >= 1
    ensures forall i :: 0 <= i < |parts| ==> sep !in parts[i]
    decreases |s|
  {
    if |s| == 0 then [""]
    else
      var rest := Split(s[1..], sep);
      if s[0] == sep then [""] + rest
      else [[s[0]] + rest[0]] + rest[1..]
  }

  /** The pieces glued back together with the separator. */
  function Join(parts: seq<string>, sep: char): string
    requires |parts| >= 1
    decreases |parts|
  {
    if |parts| == 1 then parts[0] else parts[0] + [sep] + Join(parts[1..], sep)
  }

  /** Splitting loses nothing: joining the pieces gives the string back. */
  lemma {:induction false} SplitJoin(s: string, sep: char)
    ensures Join(Split(s, sep), sep) == s
    decreases |s|
  {
    if |s| > 0 {
      var rest := Split(s[1..], sep);
      SplitJoin(s[1..], sep);
      if s[0] == sep {
        assert ([""] + rest)[1..] == rest;
      } else if |rest| > 1 {
        assert ([[s[0]] + rest[0]] + rest[1..])[1..] == rest[1..];
        assert Join(rest, sep) == rest[0] + [sep] + Join(rest[1..], sep);
      }
      assert s == [s[0]] + s[1..];
    }
  }

  /** A string without the separator is a single piece. */
  lemma {:induction false} SplitNoSep(a: string, sep: char)
    requires sep !in a
    ensures Split(a, sep) == [a]
    decreases |a|
  {
    if |a| > 0 {
      SplitNoSep(a[1..], sep);
      assert [a[0]] + a[1..] == a;
    }
  }

  /** A separator-free piece followed by a separator splits off as the first piece. */
  lemma {:induction false} SplitAfter(a: string, sep: char, b: string)
    requires sep !in a
    ensures Split(a + [sep] + b, sep) == [a] + Split(b, sep)
    decreases |a|
  {
    var s := a + [sep] + b;
    if |a| == 0 {
      assert s[1..] == b;
    } else {
      assert s[1..] == a[1..] + [sep] + b;
      SplitAfter(a[1..], sep, b);
      assert [a[0]] + a[1..] == a;
    }
  }

  /** Splitting undoes joining pieces that do not contain the separator. */
  lemma {:induction false} JoinSplit(parts: seq<string>, sep: char)
    requires |parts| >= 1
    requires forall i :: 0 <= i < |parts| ==> sep !in parts[i]
    ensures Split(Join(parts, sep), sep) == parts
    decreases |parts|
  {
    if |parts| == 1 {
      SplitNoSep(parts[0], sep);
    } else {
      JoinSplit(parts[1..], sep);
      SplitAfter(parts[0], sep, Join(parts[1..], sep));
      assert [parts[0]] + parts[1..] == parts;
    }
  }

  /** The locale in a pathname: its second `/`-separated piece, or "en" when that piece is
      missing or empty. */
  function Locale(pathname: string): (locale: string)
    ensures locale != "" && '/' !in locale
  {
    var parts := Split(pathname, '/');
    if |parts| > 1 && parts[1] != "" then parts[1] else "en"
  }

  /** A pathname `/<locale>` followed by nothing or by a further `/...` yields that locale. */
  lemma LocaleOfPath(locale: string, rest: string)
    requires locale != "" && '/' !in locale
    requires rest == "" || rest[0] == '/'
    ensures Locale("/" + locale + rest) == locale
  {
    var s := "/" + locale + rest;
    assert s == [] + ['/'] + (locale + rest);
    SplitAfter([], '/', locale + rest);
    if rest == "" {
      assert locale + rest == locale;
      SplitNoSep(locale, '/');
    } else {
      assert locale + rest == locale + ['/'] + rest[1..];
      SplitAfter(locale, '/', rest[1..]);
    }
  }

  /** The default applies to the root, to a path with no separator and to a path whose
      second piece is empty; "/fr/about" yields "fr". */
  lemma LocaleExamples(noSlash: string, rest: string)
    requires '/' !in noSlash
    ensures Locale("/") == "en"
    ensures Locale(noSlash) == "en"
    ensures Locale("//" + rest) == "en"
    ensures Locale("/fr/about") == "fr"
  {
    SplitAfter([], '/', []);
    assert "/" == [] + ['/'] + [];
    SplitNoSep([], '/');
    SplitNoSep(noSlash, '/');
    assert "//" + rest == [] + ['/'] + ("" + ['/'] + rest);
    SplitAfter([], '/', "" + ['/'] + rest);
    SplitAfter([], '/', rest);
    LocaleOfPath("fr", "/about");
    assert "/fr/about" == "/" + "fr" + "/about";
  }

  /** The routes of the five navigation links: home, technology, about, team, contact. */
  const NavRoutes: seq<string> := ["", "/technology", "/about", "/team", "/contact"]

  /** The links' targets under a locale. */
  function NavItems(locale: string): (hrefs: seq<string>)
    ensures |hrefs| == |NavRoutes|
  {
    seq(|NavRoutes|, i requires 0 <= i < |NavRoutes| => "/" + locale + NavRoutes[i])
  }

  /** Whether the link to `href` is highlighted: the home link only for the exact locale root
      with or without a trailing slash, every other link for any pathname it is a prefix of. */
  predicate IsActive(pathname: string, locale: string, href: string) {
    if href == "/" + locale then pathname == "/" + locale || pathname == "/" + locale + "/"
    else href <= pathname
  }

  /** Every route but home has at least five characters, and any two of them differ at
      their second or fourth character. */
  lemma RoutesDiverge(i: nat, j: nat)
    requires 1 <= i < j < |NavRoutes|
    ensures |NavRoutes[i]| >= 5 && |NavRoutes[j]| >= 5
    ensures NavRoutes[i][1] != NavRoutes[j][1] || NavRoutes[i][3] != NavRoutes[j][3]
  {}

  /** For any pathname and locale at most one navigation link is highlighted. */
  lemma AtMostOneActive(pathname: string, locale: string, i: nat, j: nat)
    requires i < j < |NavRoutes|
    ensures !(IsActive(pathname, locale, NavItems(locale)[i]) && IsActive(pathname, locale, NavItems(locale)[j]))
  {
    var home := "/" + locale;
    var items := NavItems(locale);
    RoutesDiverge(if i == 0 then 1 else i, if i == 0 then (if j == 1 then 2 else j) else j);
    assert |items[j]| == |home| + |NavRoutes[j]| >= |home| + 5;
    assert items[j] != home;
    if i == 0 {
      assert items[0] == home + "" == home;
    } else {
      var p := if NavRoutes[i][1] != NavRoutes[j][1] then 1 else 3;
      assert items[i] != home;
      assert items[i][|home| + p] == NavRoutes[i][p];
      assert items[j][|home| + p] == NavRoutes[j][p];
    }
  }

  /** On the page of link `k` (as a pathname "/<locale><route>"), the locale read back from
      the pathname is that locale and link `k` is the highlighted one. */
  lemma CurrentPageActive(locale: string, k: nat)
    requires locale != "" && '/' !in locale
    requires k < |NavRoutes|
    ensures var pathname := "/" + locale + NavRoutes[k];
      Locale(pathname) == locale && IsActive(pathname, locale, NavItems(locale)[k])
  {
    assert NavRoutes[k] == "" || NavRoutes[k][0] == '/';
    LocaleOfPath(locale, NavRoutes[k]);
    if k == 0 {
      assert "/" + locale + NavRoutes[k] == "/" + locale;
    }
  }

  /** The header's own state: whether the page is scrolled, whether the mobile menu is open,
      and the body's overflow style that the menu effect keeps in step with it. */
  class HeaderState {
    var isScrolled: bool
    var menuOpen: bool
    var bodyOverflow: string

    /** The body cannot scroll exactly while the menu is open. */
    predicate Valid()
      reads this
    {
      bodyOverflow == (if menuOpen then "hidden" else "")
    }

    /** The header mounts with the menu closed, and the menu effect clears the overflow. */
    constructor ()
      ensures Valid() && !isScrolled && !menuOpen && bodyOverflow == ""
    {
      isScrolled := false;
      menuOpen := false;
      bodyOverflow := "";
    }

    /** The scroll listener: the header is "scrolled" past 20 pixels. */
    method OnScroll(scrollY: real)
      modifies this
      ensures isScrolled <==> scrollY > 20.0
      ensures menuOpen == old(menuOpen) && bodyOverflow == old(bodyOverflow)
    {
      isScrolled := scrollY > 20.0;
    }

    /** The menu button flips the menu, and the effect then locks or frees the body. */
    method ToggleMenu()
      modifies this
      ensures Valid()
      ensures menuOpen == !old(menuOpen) && isScrolled == old(isScrolled)
    {
      menuOpen := !menuOpen;
      if menuOpen {
        bodyOverflow := "hidden";
      } else {
        bodyOverflow := "";
      }
    }

    /** The backdrop click, the Escape key, a mobile navigation link and the mobile call to
        action all close the menu, and the effect then frees the body. */
    method CloseMenu()
      modifies this
      ensures Valid()
      ensures !menuOpen && bodyOverflow == "" && isScrolled == old(isScrolled)
    {
      menuOpen := false;
      bodyOverflow := "";
    }

    /** Unmounting runs the effect's cleanup, which always frees the body. */
    method Unmount()
      modifies this
      ensures bodyOverflow == ""
      ensures menuOpen == old(menuOpen) && isScrolled == old(isScrolled)
    {
      bodyOverflow := "";
    }
  }
}
