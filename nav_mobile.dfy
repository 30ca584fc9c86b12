/** The slide-in mobile menu with the "+"/"X" button
    (src/components/NavMobile.tsx). Unlike the round-button menu it does no route
    lookup, closes on a click outside itself, and sizes itself to the measured
    window height. */
module NavMobile {

  const Hidden: string := "hidden"
  const Cleared: string := ""

  datatype PanelState = PanelState(
    isMobileMenuOpen: bool,
    activeIndex: int,
    viewportHeight: int,
    bodyOverflow: string,
    mounted: bool)

  datatype PanelEvent =
    | ButtonClick                                   // propagation stopped
    | DocumentClick(inMenu: bool, inButton: bool)   // `closest` found the menu / the button
    | LinkClick(index: int)
    | Resize(innerHeight: int)                      // also run once on mount
    | Unmount

  /** The same lock rule as the round-button menu's; this component writes its own copy. */
  function OverflowFor(open: bool): (r: string)
    ensures r == Hidden <==> open
    ensures !open ==> r == Cleared
  {
    if open then Hidden else Cleared
  }

  /** The first render: closed, "Accueil" (index 0) active, height not yet measured. */
  function Initial(): (s: PanelState)
    ensures !s.isMobileMenuOpen && s.activeIndex == 0 && s.viewportHeight == 0
    ensures s.bodyOverflow == Cleared && s.mounted
  {
    PanelState(false, 0, 0, OverflowFor(false), true)
  }

  function WithOpen(s: PanelState, open: bool): PanelState
  {
    s.(isMobileMenuOpen := open, bodyOverflow := OverflowFor(open))
  }

  /** The outside-click rule: close only an open menu, and only for a target in
      neither the menu nor its button. */
  predicate ClosesOnOutsideClick(open: bool, inMenu: bool, inButton: bool)
  {
    open && !inMenu && !inButton
  }

  function Step(s: PanelState, e: PanelEvent): PanelState
  {
    if !s.mounted then s
    else
      match e
      case ButtonClick => WithOpen(s, !s.isMobileMenuOpen)
      case DocumentClick(inMenu, inButton) =>
        if ClosesOnOutsideClick(s.isMobileMenuOpen, inMenu, inButton) then WithOpen(s, false) else s
      case LinkClick(index) => WithOpen(s.(activeIndex := index), false)
      case Resize(h) => s.(viewportHeight := h)
      case Unmount => s.(mounted := false, bodyOverflow := Cleared)
  }

  /** Events in order. A link click's event then reaches the document from
      inside the menu, as `DocumentClick(true, false)`. */
  function Run(s: PanelState, es: seq<PanelEvent>): PanelState
    decreases |es|
  {
    if es == [] then s else Run(Step(s, es[0]), es[1..])
  }

  ghost predicate Inv(s: PanelState)
  {
    s.bodyOverflow == (if s.mounted && s.isMobileMenuOpen then Hidden else Cleared)
  }

  lemma StepKeepsInv(s: PanelState, e: PanelEvent)
    requires Inv(s)
    ensures Inv(Step(s, e))
  {
  }

  lemma {:induction false} RunKeepsInv(s: PanelState, es: seq<PanelEvent>)
    requires Inv(s)
    ensures Inv(Run(s, es))
    decreases |es|
  {
    if es != [] {
      StepKeepsInv(s, es[0]);
      RunKeepsInv(Step(s, es[0]), es[1..]);
    }
  }

  /** From the first render, whatever happens: the body is locked exactly while
      the mounted menu is open, and cleared once unmounted. */
  lemma ScrollLockAlways(es: seq<PanelEvent>)
    ensures var s := Run(Initial(), es);
      (s.bodyOverflow == Hidden <==> s.mounted && s.isMobileMenuOpen)
      && (!s.mounted ==> s.bodyOverflow == Cleared)
  {
    RunKeepsInv(Initial(), es);
  }

  /** The button toggles, the open flag alone. */
  lemma ButtonToggles(s: PanelState)
    requires s.mounted
    ensures Step(s, ButtonClick).isMobileMenuOpen == !s.isMobileMenuOpen
    ensures Step(s, ButtonClick).activeIndex == s.activeIndex
  {
  }

  /** A document click closes the menu exactly when the outside-click rule holds,
      and otherwise changes nothing at all. */
  lemma OutsideClickCases(s: PanelState, inMenu: bool, inButton: bool)
    requires s.mounted
    ensures ClosesOnOutsideClick(s.isMobileMenuOpen, inMenu, inButton) ==>
              !Step(s, DocumentClick(inMenu, inButton)).isMobileMenuOpen
    ensures !ClosesOnOutsideClick(s.isMobileMenuOpen, inMenu, inButton) ==>
              Step(s, DocumentClick(inMenu, inButton)) == s
  {
  }

  /** Clicking link `index` (the click then bubbling to the document from inside
      the menu) selects it and closes the menu. */
  lemma {:induction false} LinkClickSelectsAndCloses(s: PanelState, index: int)
    requires s.mounted
    ensures var t := Run(s, [LinkClick(index), DocumentClick(true, false)]);
      t.activeIndex == index && !t.isMobileMenuOpen && t.viewportHeight == s.viewportHeight
  {
    var t1 := Step(s, LinkClick(index));
    assert Run(s, [LinkClick(index), DocumentClick(true, false)])
        == Run(t1, [DocumentClick(true, false)]);
    assert Run(t1, [DocumentClick(true, false)]) == Run(Step(t1, DocumentClick(true, false)), []);
  }

  /** Open, then a click on the page background, closes it again. */
  lemma {:induction false} OpenThenOutsideClick(s: PanelState)
    requires s.mounted && !s.isMobileMenuOpen
    ensures Run(s, [ButtonClick, DocumentClick(false, false)]) == s.(bodyOverflow := Cleared)
  {
    var t1 := Step(s, ButtonClick);
    assert Run(s, [ButtonClick, DocumentClick(false, false)]) == Run(t1, [DocumentClick(false, false)]);
    assert Run(t1, [DocumentClick(false, false)]) == Run(Step(t1, DocumentClick(false, false)), []);
  }

  class Panel {
    const linkCount: nat
    var isMobileMenuOpen: bool
    var activeIndex: int
    var viewportHeight: int
    var bodyOverflow: string
    var mounted: bool

    function State(): PanelState
      reads this
    {
      PanelState(isMobileMenuOpen, activeIndex, viewportHeight, bodyOverflow, mounted)
    }

    ghost predicate Valid()
      reads this
    {
      Inv(State())
    }

    /** The first render followed by the mount effect's `updateViewportHeight()`. */
    constructor (linkCount: nat, innerHeight: int)
      ensures this.linkCount == linkCount
      ensures State() == Step(Initial(), Resize(innerHeight)) && Valid()
    {
      this.linkCount := linkCount;
      isMobileMenuOpen := false;
      activeIndex := 0;
      bodyOverflow := Cleared;
      mounted := true;
      viewportHeight := innerHeight;
    }

    /** The lock effect on `isMobileMenuOpen`: cleanup clears, then lock if open. */
    method ApplyScrollLock()
      modifies this`bodyOverflow
      ensures bodyOverflow == OverflowFor(isMobileMenuOpen)
    {
      bodyOverflow := Cleared;
      if isMobileMenuOpen {
        bodyOverflow := Hidden;
      } else {
        bodyOverflow := Cleared;
      }
    }

    method OnButtonClick()
      requires Valid()
      modifies this
      ensures Valid() && State() == Step(old(State()), ButtonClick)
    {
      if !mounted { return; }
      isMobileMenuOpen := !isMobileMenuOpen;
      ApplyScrollLock();
    }

    method OnDocumentClick(inMenu: bool, inButton: bool)
      requires Valid()
      modifies this
      ensures Valid() && State() == Step(old(State()), DocumentClick(inMenu, inButton))
    {
      if !mounted { return; }
      if isMobileMenuOpen && !inMenu && !inButton {
        isMobileMenuOpen := false;
        ApplyScrollLock();
      }
    }

    method OnLinkClick(index: int)
      requires Valid() && 0 <= index < linkCount
      modifies this
      ensures Valid() && State() == Step(old(State()), LinkClick(index))
    {
      if !mounted { return; }
      activeIndex := index;
      isMobileMenuOpen := false;
      ApplyScrollLock();
    }

    method OnResize(innerHeight: int)
      requires Valid()
      modifies this
      ensures Valid() && State() == Step(old(State()), Resize(innerHeight))
    {
      if !mounted { return; }
      viewportHeight := innerHeight;
    }

    method Dispose()
      requires Valid()
      modifies this
      ensures Valid() && State() == Step(old(State()), Unmount)
    {
      if !mounted { return; }
      mounted := false;
      bodyOverflow := Cleared;
    }
  }
}
