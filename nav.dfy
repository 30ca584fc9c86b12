/** The desktop link bar (src/components/Nav.tsx) and the route-match rule that
    the mobile bar (src/components/MobileNav.tsx) repeats. */
module Nav {

  /** `label` is a reserved word in Dafny, so the shown text is `caption`. */
  datatype NavItem = NavItem(caption: string, href: string)

  /** The links both bars fall back to. */
  function DefaultItems(): (r: seq<NavItem>)
    ensures |r| == 3 && r[1].href == "/realisations"
  {
    [NavItem("Accueil", "/"), NavItem("Réalisations", "/realisations"), NavItem("Compétence", "/competence")]
  }

  /** The findIndex predicate: a real route (not the "#" placeholder) equal to the path. */
  predicate MatchesRoute(item: NavItem, pathname: string)
  {
    item.href != "#" && pathname == item.href
  }

  /** `items.findIndex(...)`: the first matching index, or -1. */
  function FindRouteIndex(items: seq<NavItem>, pathname: string): (r: int)
    ensures -1 <= r < |items|
    ensures r >= 0 ==> MatchesRoute(items[r], pathname)
    ensures r >= 0 ==> forall j :: 0 <= j < r ==> !MatchesRoute(items[j], pathname)
    ensures r == -1 <==> forall j :: 0 <= j < |items| ==> !MatchesRoute(items[j], pathname)
  {
    if items == [] then -1
    else if MatchesRoute(items[0], pathname) then 0
    else
      var k := FindRouteIndex(items[1..], pathname);
      assert forall j :: 1 <= j < |items| ==> items[j] == items[1..][j - 1];
      if k < 0 then -1 else k + 1
  }

  /** The lazy initial `activeIndex`: the route's index, else `initialActiveIndex`. */
  function InitialActiveIndex(items: seq<NavItem>, pathname: string, initialActiveIndex: int): (r: int)
    // some item matches: r is the first one
    ensures (exists k :: 0 <= k < |items| && MatchesRoute(items[k], pathname)) ==>
              0 <= r < |items| && MatchesRoute(items[r], pathname)
              && forall j :: 0 <= j < r ==> !MatchesRoute(items[j], pathname)
    // none matches: the fallback
    ensures (forall k :: 0 <= k < |items| ==> !MatchesRoute(items[k], pathname)) ==> r == initialActiveIndex
  {
    var i := FindRouteIndex(items, pathname);
    if i >= 0 then i else initialActiveIndex
  }

  /** The initial active link of the default bar, path by path. */
  lemma DefaultRoutes()
    ensures InitialActiveIndex(DefaultItems(), "/", 0) == 0
    ensures InitialActiveIndex(DefaultItems(), "/realisations", 0) == 1
    ensures InitialActiveIndex(DefaultItems(), "/competence", 0) == 2
    ensures InitialActiveIndex(DefaultItems(), "/contact", 0) == 0
  {
    var items := DefaultItems();
    assert MatchesRoute(items[1], "/realisations");
    assert MatchesRoute(items[2], "/competence");
    assert !MatchesRoute(items[0], "/realisations") && !MatchesRoute(items[0], "/competence");
    assert !MatchesRoute(items[1], "/competence");
    assert forall k :: 0 <= k < 3 ==> !MatchesRoute(items[k], "/contact");
  }

  predicate IsAnchor(href: string)
  {
    |href| > 0 && href[0] == '#'
  }

  /** The result of `document.querySelector(href)`: an element, none, or a
      thrown `SyntaxError` for a string that is not a valid selector (such as "#"). */
  datatype Query = Found | Missing | InvalidSelector

  /** What follows a link click. */
  datatype ClickOutcome =
    | FollowLink(href: string)        // default navigation proceeds
    | ScrollTo(selector: string)      // default prevented, smooth scroll to the target
    | Prevented                       // default prevented, no element matched
    | Aborted                         // default prevented, the handler threw

  function ClickOutcomeFor(href: string, query: Query): (o: ClickOutcome)
    ensures o.FollowLink? <==> !IsAnchor(href)
    ensures o.FollowLink? ==> o.href == href
    ensures o.ScrollTo? <==> IsAnchor(href) && query == Found
    ensures o.ScrollTo? ==> o.selector == href
    ensures o == Aborted <==> IsAnchor(href) && query == InvalidSelector
  {
    if IsAnchor(href) then
      match query
      case Found => ScrollTo(href)
      case Missing => Prevented
      case InvalidSelector => Aborted
    else FollowLink(href)
  }

  /** Route links are followed whatever a lookup would have returned; only a
      thrown lookup keeps a click from selecting its link. */
  lemma ClickSelects(href: string, q1: Query, q2: Query)
    ensures !IsAnchor(href) ==> ClickOutcomeFor(href, q1) == ClickOutcomeFor(href, q2) == FollowLink(href)
    ensures ClickOutcomeFor("#", q1) == Aborted <==> q1 == InvalidSelector
  {
  }

  /** The links among `n` drawn with the active styling (`activeIndex === index`):
      at most one, and exactly the active one when it is a real link. */
  function ActiveStyled(n: nat, activeIndex: int): (r: set<int>)
    ensures forall j :: j in r <==> 0 <= j < n && j == activeIndex
    ensures |r| <= 1
    ensures 0 <= activeIndex < n ==> r == {activeIndex}
  {
    if 0 <= activeIndex < n then {activeIndex} else {}
  }

  class NavBar {
    const items: seq<NavItem>
    var activeIndex: int

    constructor (items: seq<NavItem>, pathname: string, initialActiveIndex: int)
      ensures this.items == items
      ensures activeIndex == InitialActiveIndex(items, pathname, initialActiveIndex)
    {
      this.items := items;
      var i := FindRouteIndex(items, pathname);
      activeIndex := if i >= 0 then i else initialActiveIndex;
    }

    /** A click on link `index`, anchor or route alike, makes it the active one,
        unless the anchor lookup threw first. `query` is only consulted for anchors. */
    method Click(index: int, query: Query) returns (outcome: ClickOutcome)
      requires 0 <= index < |items|
      modifies this`activeIndex
      ensures outcome == ClickOutcomeFor(items[index].href, query)
      ensures activeIndex == if outcome == Aborted then old(activeIndex) else index
      ensures outcome != Aborted ==> ActiveStyled(|items|, activeIndex) == {index}
    {
      var href := items[index].href;
      if |href| > 0 && href[0] == '#' {
        match query
        case InvalidSelector =>
          outcome := Aborted;
          return;
        case Found =>
          outcome := ScrollTo(href);
        case Missing =>
          outcome := Prevented;
      } else {
        outcome := FollowLink(href);
      }
      activeIndex := index;
    }
  }
}
