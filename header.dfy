/** The site header (frontend/src/components/layout/Header.tsx): which
    navigation link is highlighted for the current path, and the mobile menu. */
module Header {
  import opened Text

  const Navigation: seq<string> := ["/", "/dashboard", "/features", "/pricing"]

  /** The root link matches only the root path; any other link matches every
      path that starts with it. */
  predicate IsActive(path: string, pathname: string) {
    (path == "/" && pathname == "/") || (path != "/" && StartsWith(pathname, path))
  }

  /** A non-root link is highlighted on its own page and on every path that
      extends it, including ones that only share the prefix, such as
      "/dashboardX" for "/dashboard"; the root link is highlighted only on the
      root page. */
  lemma IsActiveMeaning(path: string, pathname: string, rest: string)
    ensures IsActive("/", pathname) <==> pathname == "/"
    ensures path != "/" ==> IsActive(path, path + rest)
    ensures path != "/" && !StartsWith(pathname, path) ==> !IsActive(path, pathname)
    ensures IsActive("/dashboard", "/dashboardX")
  {
    assert (path + rest)[..|path|] == path;
    assert "/dashboardX"[..|"/dashboard"|] == "/dashboard";
  }

  /** No path highlights two of the navigation links. */
  lemma AtMostOneActive(pathname: string)
    ensures forall i, j :: 0 <= i < j < |Navigation| ==> !(IsActive(Navigation[i], pathname) && IsActive(Navigation[j], pathname))
  {
    assert Navigation[1][1] == 'd' && Navigation[2][1] == 'f' && Navigation[3][1] == 'p';
  }

  /** The header's menu state. */
  class MobileMenu {
    var open: bool

    constructor()
      ensures !open
    {
      open := false;
    }

    /** The menu button. */
    method Toggle()
      modifies this
      ensures open == !old(open)
    {
      open := !open;
    }

    /** Any link in the open menu, including Sign in and Sign up. */
    method FollowLink()
      modifies this
      ensures !open
    {
      open := false;
    }
  }
}
