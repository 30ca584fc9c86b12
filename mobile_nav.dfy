/** The full-screen menu with the floating round button
    (src/components/MobileNav.tsx). Its state is the open flag, the scrolled
    flag that darkens the button, the active link, and the body's `overflow`
    style, which the component writes to lock page scrolling. */
module MobileNav {
  import Nav

  const ScrollThreshold: real := 50.0
  const Hidden: string := "hidden"
  const Cleared: string := ""

  datatype MenuState = MenuState(
    isOpen: bool,
    isScrolled: bool,
    activeIndex: int,
    bodyOverflow: string,
    mounted: bool)       // listeners attached, effects live

  datatype MenuEvent =
    | Toggle                   // the round button
    | Close                    // `closeMenu`
    | LinkClick(index: int)    // a link in the open menu
    | Scroll(scrollY: real)    // a window scroll event
    | Unmount                  // effect cleanups

  /** What the body's `overflow` is set to for a given open flag. */
  function OverflowFor(isOpen: bool): (r: string)
    ensures r == Hidden <==> isOpen
    ensures !isOpen ==> r == Cleared
  {
    if isOpen then Hidden else Cleared
  }

  /** The first render: closed, not scrolled (no scroll event yet), route-matched link. */
  function Initial(items: seq<Nav.NavItem>, pathname: string, initialActiveIndex: int): (s: MenuState)
    ensures !s.isOpen && !s.isScrolled && s.mounted
    ensures s.activeIndex == Nav.InitialActiveIndex(items, pathname, initialActiveIndex)
    ensures s.bodyOverflow == Cleared
  {
    MenuState(false, false, Nav.InitialActiveIndex(items, pathname, initialActiveIndex), OverflowFor(false), true)
  }

  /** Sets the open flag; the scroll-lock effect then rewrites the body style. */
  function WithOpen(s: MenuState, open: bool): MenuState
  {
    s.(isOpen := open, bodyOverflow := OverflowFor(open))
  }

  function Step(s: MenuState, e: MenuEvent): MenuState
  {
    if !s.mounted then s
    else
      match e
      case Toggle => WithOpen(s, !s.isOpen)
      case Close => WithOpen(s, false)
      case LinkClick(index) => WithOpen(s.(activeIndex := index), false)
      case Scroll(scrollY) => s.(isScrolled := scrollY > ScrollThreshold)
      case Unmount => s.(mounted := false, bodyOverflow := Cleared)
  }

  /** The scroll lock: while mounted the body is locked exactly when the menu is
      open; after unmount it is cleared. */
  ghost predicate Inv(s: MenuState)
  {
    s.bodyOverflow == (if s.mounted && s.isOpen then Hidden else Cleared)
  }

  lemma InitialInv(items: seq<Nav.NavItem>, pathname: string, initialActiveIndex: int)
    ensures Inv(Initial(items, pathname, initialActiveIndex))
  {
  }

  lemma StepKeepsInv(s: MenuState, e: MenuEvent)
    requires Inv(s)
    ensures Inv(Step(s, e))
  {
  }

  /** While mounted, the body is locked iff the menu is open. */
  lemma ScrollLockIffOpen(s: MenuState)
    requires Inv(s) && s.mounted
    ensures s.bodyOverflow == Hidden <==> s.isOpen
  {
  }

  /** Two presses of the button restore the state. */
  lemma ToggleTwice(s: MenuState)
    requires Inv(s)
    ensures Step(Step(s, Toggle), Toggle) == s
  {
  }

  /** Toggle flips the open flag and nothing else but the body style. */
  lemma ToggleFlips(s: MenuState)
    requires s.mounted
    ensures Step(s, Toggle).isOpen == !s.isOpen
    ensures Step(s, Toggle).activeIndex == s.activeIndex
    ensures Step(s, Toggle).isScrolled == s.isScrolled
  {
  }

  /** Close leaves the menu closed, and closing again changes nothing. */
  lemma CloseIdempotent(s: MenuState)
    ensures !Step(s, Close).isOpen || !s.mounted
    ensures Step(Step(s, Close), Close) == Step(s, Close)
  {
  }

  /** A link click makes that link active and closes the menu. */
  lemma LinkClickSelectsAndCloses(s: MenuState, index: int)
    requires s.mounted
    ensures Step(s, LinkClick(index)).activeIndex == index
    ensures !Step(s, LinkClick(index)).isOpen
    ensures Step(s, LinkClick(index)).isScrolled == s.isScrolled
  {
  }

  /** The scrolled flag follows the last scroll position only. */
  lemma ScrolledIffPastThreshold(s: MenuState, y: real)
    requires s.mounted
    ensures Step(s, Scroll(y)).isScrolled <==> y > 50.0
    ensures Step(s, Scroll(y)).isOpen == s.isOpen
  {
  }

  /** The button's dark background. */
  predicate ButtonDark(s: MenuState)
  {
    s.isScrolled || s.isOpen
  }

  /** After a click on one of the `n` links, that link alone gets the active styling. */
  lemma LinkClickStylesOnlyIt(s: MenuState, index: int, n: nat)
    requires s.mounted && 0 <= index < n
    ensures Nav.ActiveStyled(n, Step(s, LinkClick(index)).activeIndex) == {index}
    ensures forall j :: 0 <= j < n && j != index ==> j !in Nav.ActiveStyled(n, Step(s, LinkClick(index)).activeIndex)
  {
  }

  /** The button is dark while the menu is open, whatever the scroll position,
      and after a link click only if the page is scrolled. */
  lemma ButtonDarkCases(s: MenuState, index: int)
    requires s.mounted
    ensures ButtonDark(Step(s, Toggle)) <==> s.isScrolled || !s.isOpen
    ensures ButtonDark(Step(s, LinkClick(index))) <==> s.isScrolled
  {
  }

  class MobileMenu {
    const items: seq<Nav.NavItem>
    var isOpen: bool
    var isScrolled: bool
    var activeIndex: int
    var bodyOverflow: string
    var mounted: bool

    function State(): MenuState
      reads this
    {
      MenuState(isOpen, isScrolled, activeIndex, bodyOverflow, mounted)
    }

    ghost predicate Valid()
      reads this
    {
      Inv(State())
    }

    constructor (items: seq<Nav.NavItem>, pathname: string, initialActiveIndex: int)
      ensures this.items == items
      ensures State() == Initial(items, pathname, initialActiveIndex) && Valid()
    {
      this.items := items;
      isOpen := false;
      isScrolled := false;
      var i := Nav.FindRouteIndex(items, pathname);
      activeIndex := if i >= 0 then i else initialActiveIndex;
      bodyOverflow := Cleared;
      mounted := true;
    }

    /** The body-style effect after `isOpen` changed: cleanup clears, then the effect locks if open. */
    method ApplyScrollLock()
      modifies this`bodyOverflow
      ensures bodyOverflow == OverflowFor(isOpen)
    {
      bodyOverflow := Cleared;
      if isOpen {
        bodyOverflow := Hidden;
      }
    }

    method ToggleMenu()
      requires Valid()
      modifies this
      ensures Valid() && State() == Step(old(State()), Toggle)
    {
      if !mounted { return; }
      isOpen := !isOpen;
      ApplyScrollLock();
    }

    method CloseMenu()
      requires Valid()
      modifies this
      ensures Valid() && State() == Step(old(State()), Close)
    {
      if !mounted { return; }
      isOpen := false;
      ApplyScrollLock();
    }

    method ClickLink(index: int)
      requires Valid() && 0 <= index < |items|
      modifies this
      ensures Valid() && State() == Step(old(State()), LinkClick(index))
    {
      if !mounted { return; }
      activeIndex := index;
      CloseMenu();
    }

    method HandleScroll(scrollY: real)
      requires Valid()
      modifies this
      ensures Valid() && State() == Step(old(State()), Scroll(scrollY))
    {
      if !mounted { return; }
      isScrolled := scrollY > ScrollThreshold;
    }

    /** Unmount: the scroll listener is removed and the body style is cleared. */
    method Dispose()
      requires Valid()
      modifies this
      ensures Valid() && State() == Step(old(State()), Unmount)
    {
      if !mounted { return; }
      mounted := false;
      bodyOverflow := Cleared;
    }

    /** Whether the button is drawn dark. */
    function IsButtonDark(): (r: bool)
      reads this
      ensures r <==> ButtonDark(State())
    {
      isScrolled || isOpen
    }
  }
}
