/** The public site header (client/components/layout/SiteHeader.tsx), which is hidden on
    the signed-in pages. */
module SiteHeader {
  import opened Text
  import opened BottomNav

  /** `isAuth`: the pathname starts with one of the signed-in page paths. */
  predicate HidesHeader(pathname: string) {
    StartsWith(pathname, "/dashboard") || StartsWith(pathname, "/chat") ||
    StartsWith(pathname, "/profile") || StartsWith(pathname, "/settings")
  }

  /** The header hides exactly on paths that start with some tab's path. */
  lemma HidesIffTabPrefix(pathname: string)
    ensures HidesHeader(pathname) <==>
            exists i :: 0 <= i < |Items| && StartsWith(pathname, Items[i].path)
  {
    if HidesHeader(pathname) {
      if StartsWith(pathname, "/dashboard") {
        assert StartsWith(pathname, Items[0].path);
      } else if StartsWith(pathname, "/chat") {
        assert StartsWith(pathname, Items[1].path);
      } else if StartsWith(pathname, "/profile") {
        assert StartsWith(pathname, Items[2].path);
      } else {
        assert StartsWith(pathname, Items[3].path);
      }
    }
  }

  /** Wherever a tab is active, the header is hidden. */
  lemma ActiveTabHides(pathname: string, i: nat)
    requires i < |Items| && IsActive(pathname, Items[i].path)
    ensures HidesHeader(pathname)
  {
    ActiveStartsWith(pathname, Items[i].path);
    HidesIffTabPrefix(pathname);
  }

  /** The test is a plain prefix test: `/chatter` hides the header with no tab active. */
  lemma ChatterHides()
    ensures HidesHeader("/chatter")
    ensures forall i :: 0 <= i < |Items| ==> !IsActive("/chatter", Items[i].path)
  {
    assert StartsWith("/chatter", "/chat");
    var p := "/chatter";
    assert p[5] != '/';
    forall i | 0 <= i < |Items|
      ensures !IsActive(p, Items[i].path)
    {
      if i != 1 {
        assert p[1] != Items[i].path[1];
      }
    }
  }

  /** The landing page, the sign-in page and onboarding show the header. */
  lemma PublicPagesShowHeader()
    ensures !HidesHeader("/") && !HidesHeader("/auth") && !HidesHeader("/onboarding")
  {
    var a, o := "/auth", "/onboarding";
    assert a[1] == 'a' && o[1] == 'o';
  }
}
