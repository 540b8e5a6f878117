/**
 * The bottom navigation bar: which of its four links is highlighted for the
 * current path. The path is `None` while the router has not reported one.
 */
module BottomNav {
  import opened Wrappers
  import opened Strings

  /** The four link targets, in the order the bar shows them. */
  const Home: string := "/"
  const Create: string := "/create"
  const History: string := "/dashboard"
  const AccountPage: string := "/account"

  /**
   * `isActive(path)`: the home link only on exactly `/`, every other link on any
   * current path that begins with its own.
   */
  function IsActive(path: string, pathname: Option<string>): (active: bool)
    ensures path == Home ==> (active <==> pathname == Some(Home))
    ensures path != Home ==> (active <==> pathname.Some? && path <= pathname.value)
  {
    if path == Home && pathname == Some(Home) then true
    else if path != Home && pathname.Some? && StartsWith(pathname.value, path) then true
    else false
  }

  /** Before the path is known no link is highlighted. */
  lemma NothingActiveWithoutPath(path: string)
    ensures !IsActive(path, None)
  {
  }

  /** A link stays highlighted on the pages beneath it, and also on any path that merely extends its text. */
  lemma PrefixMatchesLongerPaths()
    ensures IsActive(Create, Some(Create + "/preview"))
    ensures IsActive(Create, Some(Create + "d"))
    ensures !IsActive(Home, Some(History))
  {
    assert Create <= Create + "/preview";
    assert Create <= Create + "d";
  }

  /** On any path at most one of the four links is highlighted. */
  lemma {:induction false} AtMostOneActive(pathname: Option<string>)
    ensures var links := [Home, Create, History, AccountPage];
      forall i, j :: 0 <= i < j < |links| && IsActive(links[i], pathname) ==> !IsActive(links[j], pathname)
  {
    var links := [Home, Create, History, AccountPage];
    forall i, j | 0 <= i < j < |links| && IsActive(links[i], pathname)
      ensures !IsActive(links[j], pathname)
    {
      var p := pathname.value;
      if i == 0 {
        assert p == Home;
        assert |p| < |links[j]|;
      } else {
        assert links[i] <= p;
        assert links[i][1] != links[j][1];
      }
    }
  }
}
