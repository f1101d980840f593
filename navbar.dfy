/** The top navigation bar: two links, and the rule that marks one of them active for the current path. */
module Navbar {

  /** The year summary and the share lists. */
  const Links: seq<string> := ["/", "/share"]

  /** `pathname === link || (link !== '/' && pathname.startsWith(link))`. */
  predicate IsActive(pathname: string, link: string) {
    pathname == link || (link != "/" && link <= pathname)
  }

  /** The links marked active for a path. */
  function ActiveLinks(pathname: string): (r: seq<string>)
    ensures |r| <= 1
    ensures forall k :: 0 <= k < |Links| ==> (Links[k] in r <==> IsActive(pathname, Links[k]))
  {
    var root := if IsActive(pathname, Links[0]) then [Links[0]] else [];
    var share := if IsActive(pathname, Links[1]) then [Links[1]] else [];
    assert !(IsActive(pathname, Links[0]) && IsActive(pathname, Links[1])) by {
      if pathname == "/" {
        assert |Links[1]| > |pathname|;
      }
    }
    root + share
  }

  /** The summary link is active only on exactly `/`, not on every path that starts with it. */
  lemma RootOnlyExact(pathname: string)
    ensures IsActive(pathname, "/") <==> pathname == "/"
  {
  }

  /** The share link is active on every path that starts with `/share`, with no segment boundary. */
  lemma SharePrefix(pathname: string)
    ensures IsActive(pathname, "/share") <==> "/share" <= pathname
    ensures IsActive("/shareX", "/share") && IsActive("/share/abc", "/share")
  {
    assert "/shareX"[..6] == "/share";
    assert "/share/abc"[..6] == "/share";
  }

  /** Paths outside both links mark nothing active. */
  lemma OtherPathsInactive()
    ensures ActiveLinks("/summary") == [] && ActiveLinks("/sh") == []
  {
    assert !("/share" <= "/summary") by {
      assert "/summary"[2] != "/share"[2];
    }
  }
}
