/** The navigation sidebar's rule for which link is highlighted. */
module AppSidebar {

  /** `s.startsWith(prefix)` */
  predicate StartsWith(s: string, prefix: string) {
    |prefix| <= |s| && s[..|prefix|] == prefix
  }

  /** `isActive(href)` on the current `pathname`. */
  function IsActive(pathname: string, href: string): (active: bool)
    ensures active ==> StartsWith(pathname, href)
    ensures active && href != "/" ==> |pathname| == |href| || pathname[|href|] == '/'
  {
    if href == "/" then pathname == "/"
    else pathname == href || StartsWith(pathname, href + "/")
  }

  lemma RootActiveOnlyAtRoot(pathname: string)
    ensures IsActive(pathname, "/") <==> pathname == "/"
  {
  }

  /** Another link is active on its own page and on every page below it. */
  lemma ActiveOnPageOrBelow(pathname: string, href: string, rest: string)
    requires href != "/"
    ensures IsActive(href, href)
    ensures IsActive(href + "/" + rest, href)
    ensures IsActive(pathname, href) <==>
              pathname == href || (|href| < |pathname| && pathname[..|href|] == href && pathname[|href|] == '/')
  {
    assert (href + "/" + rest)[..|href + "/"|] == href + "/";
    if |href| < |pathname| && pathname[..|href|] == href && pathname[|href|] == '/' {
      assert pathname[..|href| + 1] == href + "/";
    }
    if StartsWith(pathname, href + "/") {
      assert pathname[..|href|] == (href + "/")[..|href|];
    }
  }

  /** A path that only shares a prefix with the link, without a "/" boundary, does not activate it. */
  lemma SegmentBoundary()
    ensures !IsActive("/recipes-list", "/recipes")
    ensures IsActive("/recipes/3", "/recipes")
    ensures IsActive("/recipes", "/recipes")
    ensures !IsActive("/recipes", "/")
  {
    assert "/recipes/3"[..|"/recipes/"|] == "/recipes/";
    assert "/recipes-list"[8] == '-';
  }
}
