/** The marketing site's shared header and footer: a relative base path computed from the page's
    URL path, and navigation links prefixed with it. */
module Components {
  import opened Common

  /** `(path.match(/\//g) || []).length` */
  function CountSlashes(s: string): nat
    decreases |s|
  {
    if s == [] then 0 else (if s[0] == '/' then 1 else 0) + CountSlashes(s[1..])
  }

  /** `s.repeat(n)` */
  function Repeat(s: string, n: nat): (r: string)
    ensures |r| == n * |s|
  {
    if n == 0 then "" else s + Repeat(s, n - 1)
  }

  /** `getBasePath()` for the URL path `path`. */
  function BasePath(path: string): string {
    var depth := CountSlashes(path) as int - 2;
    if depth > 0 then Repeat("../", depth) else ""
  }

  lemma {:induction false} RepeatUp(n: nat)
    ensures forall i :: 0 <= i < |Repeat("../", n)| ==> Repeat("../", n)[i] == "../"[i % 3]
  {
    if n > 0 {
      RepeatUp(n - 1);
      var r := Repeat("../", n);
      assert r == "../" + Repeat("../", n - 1);
      forall i | 0 <= i < |r| ensures r[i] == "../"[i % 3] {
        if i >= 3 {
          assert r[i] == Repeat("../", n - 1)[i - 3];
          assert (i - 3) % 3 == i % 3;
        }
      }
    }
  }

  /** The base path is `depth` copies of `../` when the path has more than two slashes, else empty. */
  lemma BasePathShape(path: string)
    ensures var depth := CountSlashes(path) as int - 2;
      |BasePath(path)| == 3 * (if depth > 0 then depth else 0)
    ensures forall i :: 0 <= i < |BasePath(path)| ==> BasePath(path)[i] == "../"[i % 3]
  {
    var depth := CountSlashes(path) as int - 2;
    if depth > 0 {
      RepeatUp(depth);
    }
  }

  lemma {:induction false} CountSlashesAppend(a: string, b: string)
    ensures CountSlashes(a + b) == CountSlashes(a) + CountSlashes(b)
    decreases |a|
  {
    if a == [] {
      assert a + b == b;
    } else {
      assert (a + b)[0] == a[0] && (a + b)[1..] == a[1..] + b;
      CountSlashesAppend(a[1..], b);
    }
  }

  /** A path segment: no slash in it. */
  predicate IsSegment(s: string) {
    forall i :: 0 <= i < |s| ==> s[i] != '/'
  }

  lemma {:induction false} SegmentHasNoSlash(s: string)
    requires IsSegment(s)
    ensures CountSlashes(s) == 0
    decreases |s|
  {
    if s != [] {
      SegmentHasNoSlash(s[1..]);
    }
  }

  /** Directories written out, each followed by a slash. */
  function Join(dirs: seq<string>): string
    decreases |dirs|
  {
    if dirs == [] then "" else Join(dirs[..|dirs| - 1]) + dirs[|dirs| - 1] + "/"
  }

  lemma {:induction false} CountJoin(dirs: seq<string>)
    requires forall k :: 0 <= k < |dirs| ==> IsSegment(dirs[k])
    ensures CountSlashes(Join(dirs)) == |dirs|
    decreases |dirs|
  {
    if dirs != [] {
      var last := dirs[|dirs| - 1];
      CountJoin(dirs[..|dirs| - 1]);
      CountSlashesAppend(Join(dirs[..|dirs| - 1]), last);
      CountSlashesAppend(Join(dirs[..|dirs| - 1]) + last, "/");
      SegmentHasNoSlash(last);
    }
  }

  /** The URL path of page `file` in directories `dirs` of a site served under `/<prefix>/`. */
  function PagePath(prefix: string, dirs: seq<string>, file: string): string {
    "/" + prefix + "/" + Join(dirs) + file
  }

  /** On such a page the base path climbs exactly the page's directories: the two slashes the
      count leaves out are the site prefix's. */
  lemma BasePathOfPage(prefix: string, dirs: seq<string>, file: string)
    requires IsSegment(prefix) && IsSegment(file)
    requires forall k :: 0 <= k < |dirs| ==> IsSegment(dirs[k])
    ensures BasePath(PagePath(prefix, dirs, file)) == Repeat("../", |dirs|)
  {
    var p1 := "/" + prefix;
    var p2 := p1 + "/";
    var p3 := p2 + Join(dirs);
    assert PagePath(prefix, dirs, file) == p3 + file;
    assert CountSlashes("/") == 1;
    SegmentHasNoSlash(prefix);
    CountSlashesAppend("/", prefix);
    CountSlashesAppend(p1, "/");
    CountJoin(dirs);
    CountSlashesAppend(p2, Join(dirs));
    SegmentHasNoSlash(file);
    CountSlashesAppend(p3, file);
    assert CountSlashes(p3 + file) as int - 2 == |dirs|;
  }

  /** Where a relative link written on a page in directories `dirs` leads, relative to the site
      prefix: each leading `../` leaves one directory. */
  function Resolve(dirs: seq<string>, href: string): string
    decreases |href|
  {
    if |href| >= 3 && href[..3] == "../" && dirs != [] then Resolve(dirs[..|dirs| - 1], href[3..])
    else Join(dirs) + href
  }

  /** The base path brings a link back to the site prefix, whatever the page's depth. */
  lemma {:induction false} ResolveClimbs(dirs: seq<string>, rel: string)
    requires !StartsWith(rel, "../")
    ensures Resolve(dirs, Repeat("../", |dirs|) + rel) == rel
    decreases |dirs|
  {
    var href := Repeat("../", |dirs|) + rel;
    if dirs == [] {
      assert href == rel;
    } else {
      assert href == "../" + (Repeat("../", |dirs| - 1) + rel);
      assert href[..3] == "../" && href[3..] == Repeat("../", |dirs| - 1) + rel;
      ResolveClimbs(dirs[..|dirs| - 1], rel);
    }
  }

  /** Served at `/`, a page one directory deep has two slashes in its path, so no `../`. */
  lemma RootBaseEmpty(dir: string, file: string)
    requires IsSegment(dir) && IsSegment(file)
    ensures BasePath("/" + dir + "/" + file) == ""
  {
    var p1 := "/" + dir;
    var p2 := p1 + "/";
    assert CountSlashes("/") == 1;
    SegmentHasNoSlash(dir);
    CountSlashesAppend("/", dir);
    CountSlashesAppend(p1, "/");
    SegmentHasNoSlash(file);
    CountSlashesAppend(p2, file);
    assert CountSlashes(p2 + file) == 2;
  }

  /** A link that does not climb, written on a page in directory `dir`, leads inside `dir`. */
  lemma ResolveInside(dir: string, rel: string)
    requires rel != [] && rel[0] != '.'
    ensures Resolve([dir], rel) == dir + "/" + rel
  {
    if |rel| >= 3 {
      assert rel[..3][0] == rel[0];
    }
    assert [dir][..0] == [];
    assert Join([dir]) == dir + "/";
  }

  /** On a site served at `/`, a page one directory deep gets no `../`, so each of its internal
      links leads inside that directory instead of to the site's own page. */
  lemma RootServedFirstLevel(dir: string, file: string, rel: string)
    requires IsSegment(dir) && IsSegment(file)
    requires rel != [] && rel[0] != '.'
    ensures BasePath("/" + dir + "/" + file) == ""
    ensures Resolve([dir], BasePath("/" + dir + "/" + file) + rel) == dir + "/" + rel
  {
    RootBaseEmpty(dir, file);
    assert "" + rel == rel;
    ResolveInside(dir, rel);
  }

  /** Where a navigation link points: a page of the site, or an absolute URL. */
  datatype Place = Internal(rel: string) | External(url: string)

  datatype Link = Link(text: string, href: string)

  const Dashboard: string := "https://dashboard.usesnipt.com"

  const HeaderPlaces: seq<(string, Place)> := [
    ("Snipt", Internal("index.html")),
    ("Features", Internal("index.html#features")),
    ("Use Cases", Internal("use-cases/")),
    ("About", Internal("about.html")),
    ("Login", External(Dashboard)),
    ("Download", Internal("index.html#download"))
  ]

  const FooterPlaces: seq<(string, Place)> := [
    ("About", Internal("about.html")),
    ("Privacy Policy", Internal("privacy-policy.html")),
    ("Terms of Service", Internal("terms-of-service.html")),
    ("Comparisons", Internal("comparisons/best-screenshot-tools.html")),
    ("Help & FAQ", Internal("help/")),
    ("Use Cases", Internal("use-cases/")),
    ("All Platforms", Internal("screenshot-tools/")),
    ("Mac", Internal("screenshot-tools-for-mac/")),
    ("Windows", Internal("screenshot-tools-for-windows/")),
    ("Linux", Internal("screenshot-tools-for-linux/"))
  ]

  const LogoImage: string := "images/logo-blue-200.png"

  function Href(base: string, p: Place): string {
    match p
    case Internal(rel) => base + rel
    case External(url) => url
  }

  function Anchors(base: string, places: seq<(string, Place)>): seq<Link> {
    seq(|places|, i requires 0 <= i < |places| => Link(places[i].0, Href(base, places[i].1)))
  }

  /** The parts of `renderHeader()` that depend on the page: the logo's image and the links. */
  datatype Header = Header(logoSrc: string, links: seq<Link>)

  function RenderHeader(path: string): Header {
    var base := BasePath(path);
    Header(base + LogoImage, Anchors(base, HeaderPlaces))
  }

  /** The links of `renderFooter()`. */
  function RenderFooter(path: string): seq<Link> {
    Anchors(BasePath(path), FooterPlaces)
  }

  /** No internal link starts with a dot, so none climbs by itself. */
  predicate NotUpward(places: seq<(string, Place)>) {
    forall i :: 0 <= i < |places| ==> places[i].1.Internal? ==> places[i].1.rel != [] && places[i].1.rel[0] != '.'
  }

  /** On every page of the site, each internal link of a link list leads to its page relative to
      the site prefix, and each external link is left absolute. */
  lemma AnchorsResolve(prefix: string, dirs: seq<string>, file: string, places: seq<(string, Place)>)
    requires IsSegment(prefix) && IsSegment(file)
    requires forall k :: 0 <= k < |dirs| ==> IsSegment(dirs[k])
    requires NotUpward(places)
    ensures var links := Anchors(BasePath(PagePath(prefix, dirs, file)), places);
      |links| == |places| &&
      forall i :: 0 <= i < |places| ==>
        links[i].text == places[i].0 &&
        (places[i].1.Internal? ==> Resolve(dirs, links[i].href) == places[i].1.rel) &&
        (places[i].1.External? ==> links[i].href == places[i].1.url)
  {
    BasePathOfPage(prefix, dirs, file);
    forall i | 0 <= i < |places| && places[i].1.Internal?
      ensures Resolve(dirs, Repeat("../", |dirs|) + places[i].1.rel) == places[i].1.rel
    {
      assert !StartsWith(places[i].1.rel, "../") by {
        if |places[i].1.rel| >= 3 {
          assert places[i].1.rel[..3][0] == places[i].1.rel[0];
        }
      }
      ResolveClimbs(dirs, places[i].1.rel);
    }
  }

  /** The header's logo and links resolve to the site's own pages, and the login link stays on
      the dashboard. */
  lemma HeaderResolves(prefix: string, dirs: seq<string>, file: string)
    requires IsSegment(prefix) && IsSegment(file)
    requires forall k :: 0 <= k < |dirs| ==> IsSegment(dirs[k])
    ensures var h := RenderHeader(PagePath(prefix, dirs, file));
      Resolve(dirs, h.logoSrc) == LogoImage && |h.links| == 6 &&
      h.links[4] == Link("Login", Dashboard) &&
      Resolve(dirs, h.links[0].href) == "index.html" && Resolve(dirs, h.links[2].href) == "use-cases/"
  {
    assert NotUpward(HeaderPlaces);
    AnchorsResolve(prefix, dirs, file, HeaderPlaces);
    BasePathOfPage(prefix, dirs, file);
    assert LogoImage[..3][0] == 'i';
    ResolveClimbs(dirs, LogoImage);
  }

  /** All ten footer links resolve to their pages. */
  lemma FooterResolves(prefix: string, dirs: seq<string>, file: string)
    requires IsSegment(prefix) && IsSegment(file)
    requires forall k :: 0 <= k < |dirs| ==> IsSegment(dirs[k])
    ensures var f := RenderFooter(PagePath(prefix, dirs, file));
      |f| == 10 && forall i :: 0 <= i < 10 ==> Resolve(dirs, f[i].href) == FooterPlaces[i].1.rel
  {
    assert NotUpward(FooterPlaces);
    AnchorsResolve(prefix, dirs, file, FooterPlaces);
  }

  /** The header's and the footer's links, and the logo, all resolve to the site's own pages, and
      the login link stays on the dashboard. */
  lemma HeaderAndFooterResolve(prefix: string, dirs: seq<string>, file: string)
    requires IsSegment(prefix) && IsSegment(file)
    requires forall k :: 0 <= k < |dirs| ==> IsSegment(dirs[k])
    ensures var h := RenderHeader(PagePath(prefix, dirs, file));
      Resolve(dirs, h.logoSrc) == LogoImage && |h.links| == 6 &&
      h.links[4] == Link("Login", Dashboard) &&
      Resolve(dirs, h.links[0].href) == "index.html" && Resolve(dirs, h.links[2].href) == "use-cases/"
    ensures var f := RenderFooter(PagePath(prefix, dirs, file));
      |f| == 10 && forall i :: 0 <= i < 10 ==> Resolve(dirs, f[i].href) == FooterPlaces[i].1.rel
  {
    HeaderResolves(prefix, dirs, file);
    FooterResolves(prefix, dirs, file);
  }
}
