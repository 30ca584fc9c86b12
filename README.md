# Interactive core of the ADM portfolio site, in Dafny

The site is a Next.js/React portfolio. Its behaviour beyond static content sits in eight components:

- a drag-paged project **carousel** with autoplay and an infinite-loop clone;
- a vertical **infinite scroller** whose cards wrap around a band;
- an animated **3D logo** driven by a three-phase splash/transition/completed sequence;
- three **navigation bars**: a desktop bar, a round-button full-screen menu and a slide-in panel menu;
- the **landing** block, which sizes the carousel per breakpoint and loops the scroller's cards;
- a **fade zone** that dims content passing under the fixed logo.

Each component is one Dafny module:

| module | file | component |
|---|---|---|
| `Carousel` | carousel.dfy | src/ReactBits/Caroussel.tsx |
| `InfiniteScroll` | infinite_scroll.dfy | src/ReactBits/InfiniteScroll.tsx |
| `Logo3D` | logo3d.dfy | src/components/Logo3D.tsx |
| `Nav` | nav.dfy | src/components/Nav.tsx |
| `MobileNav` | mobile_nav.dfy | src/components/MobileNav.tsx |
| `NavMobile` | nav_mobile.dfy | src/components/NavMobile.tsx |
| `Landing` | landing.dfy | src/components/Landing.tsx |
| `ScrollFadeZone` | scroll_fade_zone.dfy | src/components/ScrollFadeZone.tsx |

Pure derived values are Dafny functions whose `ensures` clauses state what they mean. Examples are the width arithmetic, the route lookup, the wrap, the tilt strings, the breakpoints and the overlap rule.

Component state that handlers update in place is a class: the carousel index, the scroller's per-child `y` offsets, the logo's ref flags, and each menu's open flag and body style. Each handler is a method.

- Where a component has a small event alphabet (logo, both mobile menus), each method is proved to move the object's state exactly as a pure `Step` function does. Lemmas over `Step` and over whole event sequences (`Run`) carry the properties.
- The carousel methods and the scroller loops are proved directly against functions of the old state. For example, `ShiftAll` leaves the array equal to `Shifted(old(offsets[..]), d, band)`.

Browser inputs become method parameters: viewport sizes, drag offsets and velocities, wheel deltas, bounding boxes, `querySelector` results and click targets. Tweens are taken at their end values.

Facts about the code that a reader might not expect:

- Four forward drags take a four-item looped carousel from slot 0 to the clone at slot 4 (`Carousel.LoopScenario`).
- From the clone a forward drag stays on the clone (`min(prev + 1, length - 1)`). An autoplay tick and the animation-complete reset go to 0, and a backward drag goes to `n - 1`.
- The infinite scroller has no code that depends on the screen size and none that pauses on touch.
- The fade zone's "outside the zone" branch is unreachable as written (see Findings). The `FadeZone` class applies the corrected rule.

## Model

| member | source | states |
|---|---|---|
| Carousel.DefaultItems | src/ReactBits/Caroussel.tsx:119-144 | the fallback list has four items with ids 1 to 4 |
| Carousel.RenderedItems | src/ReactBits/Caroussel.tsx:166 | the track is the items in order, plus, in loop mode, one slot more that repeats the first item (`undefined` with no items) |
| Carousel.ContainerWidthFor | src/ReactBits/Caroussel.tsx:176-188 | the width never exceeds `baseWidth`; it is `baseWidth` at 768 px and above; below 768 px it is at most `innerWidth - 32` and equals one of those two values |
| Carousel.TrackGeometry | src/ReactBits/Caroussel.tsx:163-164 | the item offset is `containerWidth - 32 + 16`; slot 0 sits at 0 and neighbouring slots are one offset apart |
| Carousel.TargetWithinDragConstraints | src/ReactBits/Caroussel.tsx:279-286 | outside loop mode the animated position of every slot lies inside the drag limits `[-offset * (slots - 1), 0]` |
| Carousel.TickNext | src/ReactBits/Caroussel.tsx:217-225 | looped: the successor on a ring of `n + 1` slots (last item, then the clone, then 0); plain: the successor, held at the last item; an in-range index stays in range |
| Carousel.EmptyTrackTickClimbs | src/ReactBits/Caroussel.tsx:221-224 | with no items and no loop the `length - 1` test never matches, so every tick increments the index |
| Carousel.DragDirectionOf | src/ReactBits/Caroussel.tsx:256-262 | forward iff offset < 0 or velocity < -500; backward iff not forward and offset > 0 or velocity > 500 |
| Carousel.DragNext | src/ReactBits/Caroussel.tsx:254-268 | no threshold met: unchanged; forward: `min(cur + 1, slots - 1)`; backward, looped: the predecessor on a ring of `n` items (0 goes to `n - 1`, the clone to `n - 1`); backward, plain: `max(cur - 1, 0)`; an in-range index stays in range |
| Carousel.JsRem | src/ReactBits/Caroussel.tsx:343 | JavaScript's `%` agrees with the mathematical remainder for a non-negative dividend |
| Carousel.HighlightedDot | src/ReactBits/Caroussel.tsx:343 | the dot of a real item is its own index, the clone highlights dot 0, and the dot is always a valid dot |
| Carousel.HighlightedDots | src/ReactBits/Caroussel.tsx:339-353 | the highlighted dots are those whose index equals `currentIndex % length`: at most one, exactly one on the track, dot 0 for the clone |
| Carousel.EffectiveTransition | src/ReactBits/Caroussel.tsx:239 | the transition is instant exactly while resetting, and otherwise the spring of stiffness 300 and damping 30 |
| Carousel.CarouselState.constructor | src/ReactBits/Caroussel.tsx:160-170 | starts at slot 0, position 0, width `baseWidth`, not hovered, not resetting |
| Carousel.CarouselState.UpdateDimensions | src/ReactBits/Caroussel.tsx:176-188 | sets `isMobile` iff width < 768 and the container width per `ContainerWidthFor` |
| Carousel.CarouselState.MouseEnter | src/ReactBits/Caroussel.tsx:200-211 | sets hovered only when `pauseOnHover` installs the listener |
| Carousel.CarouselState.MouseLeave | src/ReactBits/Caroussel.tsx:200-211 | clears hovered only when `pauseOnHover` installs the listener |
| Carousel.CarouselState.AutoplayTick | src/ReactBits/Caroussel.tsx:214-228 | advances per `TickNext` only while autoplay is on and not paused by hover; keeps the index on the track |
| Carousel.CarouselState.AnimationComplete | src/ReactBits/Caroussel.tsx:241-248 | on the clone in loop mode: resetting, index 0, position 0; in every other state the index and the resetting flag are unchanged |
| Carousel.CarouselState.ResetTimerElapsed | src/ReactBits/Caroussel.tsx:246 | the 50 ms timer clears the resetting flag |
| Carousel.CarouselState.DragEnd | src/ReactBits/Caroussel.tsx:250-269 | the index becomes `DragNext` of the old index and stays on the track |
| Carousel.CarouselState.DotClick | src/ReactBits/Caroussel.tsx:354 | clicking dot N sets the index to exactly N, and dot N alone is then highlighted |
| Carousel.LoopScenario | src/ReactBits/Caroussel.tsx:254-261 | four flicks from slot 0 of four looped items reach the clone at slot 4, which resets on completion and highlights dot 0 alone |
| InfiniteScroll.TiltTransform | src/ReactBits/InfiniteScroll.tsx:46-53 | `"none"` iff not tilted; otherwise the left string iff tilted left and the right string iff tilted right |
| InfiniteScroll.ContainerStylesFor | src/ReactBits/InfiniteScroll.tsx:56-82 | tilted containers are `relative` and centred; only the right tilt pins `left`/`right` to 0; the transform is the tilt transform |
| InfiniteScroll.BandIsSlotsWithoutTrailingMargin | src/ReactBits/InfiniteScroll.tsx:96-100 | `totalHeight` is `n - 1` slot heights plus one item height |
| InfiniteScroll.Wrap | src/ReactBits/InfiniteScroll.tsx:102 | the wrapped value lies in `[lo, hi)`, differs from the input by a multiple of `hi - lo`, and values already in range are kept |
| InfiniteScroll.WrapIdempotent | src/ReactBits/InfiniteScroll.tsx:102 | wrapping twice equals wrapping once |
| InfiniteScroll.WrapAbsorbsShift | src/ReactBits/InfiniteScroll.tsx:126-129 | shifting a wrapped value and wrapping again equals wrapping the shifted original |
| InfiniteScroll.WrapKeepsDifference | src/ReactBits/InfiniteScroll.tsx:122-130 | wrapping keeps the difference of two values modulo the range |
| InfiniteScroll.InitialOffsets | src/ReactBits/InfiniteScroll.tsx:104-107 | child i starts at `i * totalItemHeight` |
| InfiniteScroll.InitialOffsetsInBand | src/ReactBits/InfiniteScroll.tsx:99-107 | with a positive item height and a non-negative slot, the unwrapped start positions lie in `[-totalHeight, totalHeight)` |
| InfiniteScroll.Shifted | src/ReactBits/InfiniteScroll.tsx:122-130 | every shifted offset lies in the band and is congruent to old offset plus shift |
| InfiniteScroll.ShiftedCompose | src/ReactBits/InfiniteScroll.tsx:140-148 | two successive shifts equal one shift by their sum |
| InfiniteScroll.ShiftedKeepsSpacing | src/ReactBits/InfiniteScroll.tsx:122-130 | every child receives the same shift: pairwise spacing is preserved modulo the band |
| InfiniteScroll.InputDistance | src/ReactBits/InfiniteScroll.tsx:120-121 | drags scale the delta by 5, other input by 10, wheel deltas are negated; the sign follows the delta except for the wheel |
| InfiniteScroll.AutoplayStep | src/ReactBits/InfiniteScroll.tsx:137-138 | the per-frame shift is `+speed` for "down" and `-speed` for "up" |
| InfiniteScroll.Scroller.constructor | src/ReactBits/InfiniteScroll.tsx:84-100 | one offset per child, no Observer and no frame loop yet |
| InfiniteScroll.Scroller.Start | src/ReactBits/InfiniteScroll.tsx:84-107 | without items nothing happens: no Observer, no ticker, offsets untouched; otherwise children are placed at `InitialOffsets`, the Observer runs and the ticker runs iff autoplay |
| InfiniteScroll.Scroller.ShiftAll | src/ReactBits/InfiniteScroll.tsx:122-130 | the offsets become `Shifted(old offsets, d, band)` |
| InfiniteScroll.Scroller.OnChange | src/ReactBits/InfiniteScroll.tsx:119-132 | while observing, every child is shifted by `InputDistance` and wrapped; otherwise nothing changes |
| InfiniteScroll.Scroller.Frame | src/ReactBits/InfiniteScroll.tsx:140-150 | while ticking, every child is shifted by `AutoplayStep` and wrapped; otherwise nothing changes |
| InfiniteScroll.Scroller.MouseEnter | src/ReactBits/InfiniteScroll.tsx:154-161 | hover stops the ticker only with `pauseOnHover` |
| InfiniteScroll.Scroller.MouseLeave | src/ReactBits/InfiniteScroll.tsx:154-161 | leaving restarts the ticker only for a running, autoplaying, hover-paused scroller |
| InfiniteScroll.Scroller.Stop | src/ReactBits/InfiniteScroll.tsx:163-180 | cleanup kills the Observer and the ticker |
| InfiniteScroll.ThreeItemBandScenario | src/ReactBits/InfiniteScroll.tsx:96-107 | three 230 px items give a 690 px band starting at [0, 230, 460], and one 2 px frame moves them to [2, 232, 462] |
| Logo3D.IdleRotationStep | src/components/Logo3D.tsx:186-197 | no idle rotation while animating or detached; `1.2 * delta` in "completed", `0.3 * delta` otherwise |
| Logo3D.MountResetsFlags | src/components/Logo3D.tsx:46-49 | the mount effect clears `animating`, `completedFirst` and `completedSecond` and fires nothing |
| Logo3D.SplashGuard | src/components/Logo3D.tsx:63-73 | the splash timeline starts iff the logo is bound, the phase is "splash" and phase 1 has not completed, and then sets `animating`; otherwise only the old timeline is killed; its completion sets `completedFirst`, clears `animating` and fires `onInitialAnimationComplete` |
| Logo3D.TransitionGuard | src/components/Logo3D.tsx:103-123 | the header move starts iff bound, "transitioning", phase 1 done and phase 2 not done; its completion sets `completedSecond`, clears `animating` and fires `onTransitionComplete` |
| Logo3D.StepKeepsInv | src/components/Logo3D.tsx:62-123 | every event keeps the flag invariant and only appends to the callback log |
| Logo3D.RunKeepsInv | src/components/Logo3D.tsx:62-123 | the invariant holds along any event sequence and the callback log only grows |
| Logo3D.ResnapOnlyAfterTransition | src/components/Logo3D.tsx:104-163 | from mount, in any event order, a resize re-snap that runs finds both completion callbacks already reported |
| Logo3D.TransitionNeverFirst | src/components/Logo3D.tsx:104-123 | from mount, in any event order, every `onTransitionComplete` comes after an `onInitialAnimationComplete` |
| Logo3D.StepBudget | src/components/Logo3D.tsx:63-123 | a non-reset event never raises the remaining callback budget and never clears a completed flag |
| Logo3D.BudgetAlongRun | src/components/Logo3D.tsx:63-123 | without a mount reset the callback budget never grows along a run |
| Logo3D.OncePerMount | src/components/Logo3D.tsx:63-123 | between mount resets each callback fires at most once, and not at all once its phase is completed |
| Logo3D.LogoScene.constructor | src/components/Logo3D.tsx:28-30 | the three refs start false, nothing live, nothing fired |
| Logo3D.LogoScene.MountEffect | src/components/Logo3D.tsx:46-56 | moves the state as the mount reset does, rotation to 0 when bound |
| Logo3D.LogoScene.SplashEffectRun | src/components/Logo3D.tsx:63-100 | moves the state as `Step` on the phase-1 effect, keeping the invariant |
| Logo3D.LogoScene.SplashComplete | src/components/Logo3D.tsx:69-73 | moves the state as `Step` on the phase-1 completion |
| Logo3D.LogoScene.TransitionEffectRun | src/components/Logo3D.tsx:103-155 | moves the state as `Step` on the phase-2 effect |
| Logo3D.LogoScene.TransitionTimelineComplete | src/components/Logo3D.tsx:119-123 | moves the state as `Step` on the phase-2 completion |
| Logo3D.LogoScene.ResizeEffect | src/components/Logo3D.tsx:158-163 | the re-snap runs iff bound, in "completed", with phase 2 done; when it runs, `onTransitionComplete` has already been reported |
| Logo3D.LogoScene.Frame | src/components/Logo3D.tsx:186-197 | adds `IdleRotationStep` to the y rotation |
| Nav.DefaultItems | src/components/Nav.tsx:18-22 | three links, the second being "/realisations" |
| Nav.FindRouteIndex | src/components/Nav.tsx:28-30 | `findIndex`: -1 iff no link is a non-"#" href equal to the path; otherwise the first such index |
| Nav.InitialActiveIndex | src/components/Nav.tsx:26-32 | the first matching link when one exists, `initialActiveIndex` otherwise |
| Nav.DefaultRoutes | src/components/Nav.tsx:18-32 | on the default links "/", "/realisations" and "/competence" select 0, 1 and 2, and an unknown path falls back to 0 |
| Nav.ClickOutcomeFor | src/components/Nav.tsx:41-50 | only hrefs starting with "#" prevent navigation; of those, a found target is scrolled to and an invalid selector aborts the handler |
| Nav.ClickSelects | src/components/Nav.tsx:41-50 | a route link is followed whatever the lookup would return; the bare "#" aborts exactly when its lookup throws |
| Nav.NavBar.constructor | src/components/Nav.tsx:26-32 | the initial active index is `InitialActiveIndex` |
| Nav.ActiveStyled | src/components/Nav.tsx:60-62 | the links with the active styling are those whose index equals `activeIndex`: at most one, and exactly it when it is a real link |
| Nav.NavBar.Click | src/components/Nav.tsx:41-62 | the outcome is `ClickOutcomeFor`; the clicked index becomes active, and alone gets the active styling, unless the handler aborted |
| MobileNav.OverflowFor | src/components/MobileNav.tsx:39 | `"hidden"` iff open, `""` otherwise |
| MobileNav.Initial | src/components/MobileNav.tsx:20-28 | closed, not scrolled, body unlocked, active index by the route-match-or-fallback rule |
| MobileNav.InitialInv | src/components/MobileNav.tsx:20-41 | the first render satisfies the scroll-lock invariant |
| MobileNav.StepKeepsInv | src/components/MobileNav.tsx:31-45 | every event keeps the body locked exactly while the mounted menu is open |
| MobileNav.ScrollLockIffOpen | src/components/MobileNav.tsx:38-41 | while mounted, the body is locked iff the menu is open |
| MobileNav.ToggleTwice | src/components/MobileNav.tsx:44 | two toggles restore the whole state |
| MobileNav.ToggleFlips | src/components/MobileNav.tsx:44 | a toggle flips `isOpen` and leaves the active link and the scrolled flag alone |
| MobileNav.CloseIdempotent | src/components/MobileNav.tsx:45 | close leaves the menu closed, and closing again changes nothing |
| MobileNav.LinkClickSelectsAndCloses | src/components/MobileNav.tsx:78-81 | a link click sets the active index to it and closes the menu |
| MobileNav.LinkClickStylesOnlyIt | src/components/MobileNav.tsx:78-94 | after a click on link N, link N alone gets the active styling |
| MobileNav.ScrolledIffPastThreshold | src/components/MobileNav.tsx:32 | `isScrolled` holds iff `scrollY > 50`; scrolling does not touch the open flag |
| MobileNav.ButtonDarkCases | src/components/MobileNav.tsx:52-54 | the button is dark iff scrolled or open; after a link click only if scrolled |
| MobileNav.MobileMenu.constructor | src/components/MobileNav.tsx:20-28 | the object starts in `Initial` |
| MobileNav.MobileMenu.ApplyScrollLock | src/components/MobileNav.tsx:38-41 | the body style becomes `OverflowFor(isOpen)` |
| MobileNav.MobileMenu.ToggleMenu | src/components/MobileNav.tsx:44 | moves the state as `Step` on a toggle |
| MobileNav.MobileMenu.CloseMenu | src/components/MobileNav.tsx:45 | moves the state as `Step` on close |
| MobileNav.MobileMenu.ClickLink | src/components/MobileNav.tsx:78-81 | moves the state as `Step` on a link click |
| MobileNav.MobileMenu.HandleScroll | src/components/MobileNav.tsx:31-35 | moves the state as `Step` on a scroll event |
| MobileNav.MobileMenu.Dispose | src/components/MobileNav.tsx:33-41 | unmount clears the body style and detaches the listener |
| MobileNav.MobileMenu.IsButtonDark | src/components/MobileNav.tsx:53 | agrees with `ButtonDark` of the state |
| NavMobile.OverflowFor | src/components/NavMobile.tsx:44-49 | `"hidden"` iff open, `""` otherwise |
| NavMobile.Initial | src/components/NavMobile.tsx:24-26 | closed, index 0 with no route lookup, height 0, body unlocked |
| NavMobile.StepKeepsInv | src/components/NavMobile.tsx:43-69 | every event keeps the body locked exactly while the mounted menu is open |
| NavMobile.RunKeepsInv | src/components/NavMobile.tsx:43-69 | the same along any event sequence |
| NavMobile.ScrollLockAlways | src/components/NavMobile.tsx:43-54 | from the first render, in any event order: `"hidden"` iff mounted and open, cleared after unmount |
| NavMobile.ButtonToggles | src/components/NavMobile.tsx:108-111 | the button flips the open flag and keeps the active link |
| NavMobile.OutsideClickCases | src/components/NavMobile.tsx:57-63 | a document click closes an open menu when the target is in neither the menu nor the button, and otherwise changes nothing |
| NavMobile.LinkClickSelectsAndCloses | src/components/NavMobile.tsx:194-197 | a link click, followed by its bubbling to the document from inside the menu, selects the link and closes the menu |
| NavMobile.OpenThenOutsideClick | src/components/NavMobile.tsx:58-62 | opening and then clicking the page background restores the closed state |
| NavMobile.Panel.constructor | src/components/NavMobile.tsx:24-35 | the first render followed by the mount measurement of the window height |
| NavMobile.Panel.ApplyScrollLock | src/components/NavMobile.tsx:44-54 | the body style becomes `OverflowFor(isMobileMenuOpen)` |
| NavMobile.Panel.OnButtonClick | src/components/NavMobile.tsx:108-111 | moves the state as `Step` on a button click |
| NavMobile.Panel.OnDocumentClick | src/components/NavMobile.tsx:58-63 | moves the state as `Step` on a document click |
| NavMobile.Panel.OnLinkClick | src/components/NavMobile.tsx:194-197 | moves the state as `Step` on a link click |
| NavMobile.Panel.OnResize | src/components/NavMobile.tsx:31-33 | records the new window height |
| NavMobile.Panel.Dispose | src/components/NavMobile.tsx:38-53 | unmount clears the body style and detaches the listeners |
| Landing.CarouselWidth | src/components/Landing.tsx:199-213 | 900 with no window; below 640: `min(w - 32, 350)`; below 768: `min(w - 48, 450)`; below 1024: 600; else 900 |
| Landing.CarouselWidthAtMost900 | src/components/Landing.tsx:199-213 | the width never exceeds 900 |
| Landing.CarouselWidthMonotone | src/components/Landing.tsx:204-211 | a wider window never gets a narrower carousel |
| Landing.MobileWidthFits | src/components/Landing.tsx:204-207 | below 768 px the width leaves at least 32 px of the window |
| Landing.CarouselKeepsChosenWidth | src/components/Landing.tsx:236 | the carousel's own mobile narrowing never changes the width chosen here |
| Landing.OriginalItems | src/components/Landing.tsx:43-179 | three project cards |
| Landing.LoopedItems | src/components/Landing.tsx:182 | the looped list has four cards, the original three followed by a copy of the first |
| ScrollFadeZone.LogoBand | src/components/ScrollFadeZone.tsx:21-32 | a 100 px band centred on `innerHeight / 2 - 0.5`, so its top is `innerHeight / 2 - 0.5 - 50` |
| ScrollFadeZone.ExclusionZone | src/components/ScrollFadeZone.tsx:48-50 | the zone starts `marginY` above the logo and its height is logo height + 2 * `marginY` |
| ScrollFadeZone.Thresholds | src/components/ScrollFadeZone.tsx:56 | 20 thresholds `i / 20`, from 0, strictly ascending, all below 1 |
| ScrollFadeZone.TopOverlap | src/components/ScrollFadeZone.tsx:67 | non-negative; positive iff the box top is above the zone bottom |
| ScrollFadeZone.BottomOverlap | src/components/ScrollFadeZone.tsx:68 | non-negative; positive iff the box bottom is below the zone top |
| ScrollFadeZone.AsWrittenPercentage | src/components/ScrollFadeZone.tsx:73 | `min(1, m / h)`: `m / h` for an overlap shorter than a positive zone height, 1 for a longer one, 1 for a zero height (Infinity clamped) |
| ScrollFadeZone.FadeFor | src/components/ScrollFadeZone.tsx:77-78 | opacity is `1 - 0.9p` and the shift `10p`; for `p` in [0, 1] they lie in [0.1, 1] and [0, 10]; restored iff `p` is 0 |
| ScrollFadeZone.AsWrittenTarget | src/components/ScrollFadeZone.tsx:60-90 | both overlaps 0: opacity 1 and shift 0; otherwise `FadeFor` of the larger overlap over the zone height, capped at 1, so the shift is `10 · min(1, max(top, bottom) / zoneHeight)`; with a non-negative zone height the fade stays in range and any box that passes the test is dimmed |
| ScrollFadeZone.AsWrittenNeverRestores | src/components/ScrollFadeZone.tsx:67-71 | with a positive zone height every box passes the in-zone test, so none is ever restored |
| ScrollFadeZone.AsWrittenFadesDistantBox | src/components/ScrollFadeZone.tsx:67-78 | an 800 px viewport and the default margin give zone [299.5, 499.5]; a box at [1000, 1100] is dimmed to 0.1, where the corrected rule restores it |
| ScrollFadeZone.AsWrittenFadesNearBoxLess | src/components/ScrollFadeZone.tsx:67-78 | as written, a box inside the zone is dimmed less than that distant box |
| ScrollFadeZone.Intersection | src/components/ScrollFadeZone.tsx:66-71 | the shared length: the box's height inside the zone, the zone's height for a covering box, the part past the edge for a box across an edge; non-negative, at most the zone height, positive iff box and zone overlap |
| ScrollFadeZone.CorrectedTarget | src/components/ScrollFadeZone.tsx:70-90 | the fade is `FadeFor(shared / zoneHeight)`, proportional to the shared length: a box outside the zone is restored, a box covering it is dimmed to 0.1, a box is dimmed iff it shares length with the zone |
| ScrollFadeZone.CorrectedFadeMonotone | src/components/ScrollFadeZone.tsx:75-78 | more shared length never fades less, and strictly more fades strictly more |
| ScrollFadeZone.ProportionalScenario | src/components/ScrollFadeZone.tsx:75-78 | boxes sharing 10 and 90 pixels of a 100-pixel zone get opacity 0.91 and 0.19, shift 1 and 9 |
| ScrollFadeZone.LastEntryFor | src/components/ScrollFadeZone.tsx:60 | the last entry for a child, or -1 when there is none |
| ScrollFadeZone.AfterEntries | src/components/ScrollFadeZone.tsx:59-91 | one style per child is kept |
| ScrollFadeZone.LastEntryWins | src/components/ScrollFadeZone.tsx:59-91 | after a batch, each child has the target of its last entry, or its old style without one |
| ScrollFadeZone.FadeZone.constructor | src/components/ScrollFadeZone.tsx:16-17 | the logo starts unmeasured `{ y: 0, height: 0 }` |
| ScrollFadeZone.FadeZone.UpdateLogoPosition | src/components/ScrollFadeZone.tsx:21-32 | the logo becomes `LogoBand(innerHeight)` |
| ScrollFadeZone.FadeZone.HandleIntersection | src/components/ScrollFadeZone.tsx:59-91 | the children's styles become `AfterEntries` of the old styles against the current zone |

## Left out

- Rendering: JSX markup, class strings and inline styles beyond the state they depend on, for example the `round` layout and the `isMobile` border.
- Animation: framer-motion springs, the `useTransform` rotateY interpolation and perspective origin, gsap easing, durations and timelines, and camera, position and scale tweens. These are library behaviour over real-valued time; the model takes every tween at its end value.
- Timing and concurrency: `setInterval`, `setTimeout`, `requestAnimationFrame`, and the race between autoplay and a drag. The 50 ms reset timer is the separate step `ResetTimerElapsed`.
- Browser plumbing: listener registration, DOM measurement, `IntersectionObserver` scheduling and the gsap `Observer`. Their results enter as method parameters.
- Carousel.CarouselState.DragEnd: in loop mode it reads the rendered `currentIndex` where the other branches read `prev`. Both are the same value when each event is handled after the previous render, which is the only order modelled.
- Carousel.CarouselState: the range invariant is stated only for at least one item. With no items the index leaves the track, as `EmptyTrackTickClimbs` shows.
- InfiniteScroll: offsets and speeds are whole pixels. Fractional pixels are not modelled.
- InfiniteScroll.Scroller.constructor: requires a positive band whenever there are items. A band of zero height makes gsap's wrap divide by zero and yield NaN. A negative band, where the wrap's range is itself negative, is not modelled either.
- InfiniteScroll.Scroller.MouseLeave: when a `mouseleave` arrives without a preceding `mouseenter`, the source requests a second frame chain and the scroll speed doubles. The component keeps a single `rafId`, so `stopTicker` and the cleanup (src/ReactBits/InfiniteScroll.tsx:155, 165) cancel only the latest chain: the stray one is stopped neither by a later `mouseenter` nor on unmount. The model keeps a single ticker.
- InfiniteScroll: the cursor swap in `onPress`/`onRelease` is styling only.
- Logo3D: the rotations set by the splash timeline (to 2π and 2.2π) are not tracked. `rotationY` follows only the mount reset and the idle rotation.
- Logo3D: GLTF loading, material colouring and the re-snap position. Only whether the re-snap runs is modelled.
- Nav, MobileNav, NavMobile: Next.js navigation itself and smooth scrolling. The outcome of a click is a value.
- NavMobile: the menu and item animation variants are left out.
- Landing: the card contents are reduced to the site each card links to. The title's entrance animation is left out.
- ScrollFadeZone: the tween durations (0.2 s and 0.3 s) are not modelled. The observer re-creation after the logo is measured is not modelled either; the zone is read from the current logo at each batch.
- ScrollFadeZone.FadeZone.HandleIntersection: applies the corrected overlap rule (see Findings). `AsWrittenTarget` models the code as written.

## Findings

| source | as written | input that shows it | evidently intended | confidence | as-written member | corrected member |
|---|---|---|---|---|---|---|
| src/components/ScrollFadeZone.tsx:67-73 | a box counts as "in the zone" when `max(0, zoneBottom - top) > 0 \|\| max(0, bottom - zoneTop) > 0`; for any box of non-negative height and a zone of positive height one of the two always holds, so the restoring branch is dead and the degree of fading is `max` of the two distances over the zone height | viewport 800, default margin: zone [299.5, 499.5]; a box at [1000, 1100] gets bottom overlap 800.5, fraction 1, opacity 0.1, while a box at [350, 450] inside the zone gets opacity about 0.32 | fade by the length the box shares with the zone, and restore any box that shares none | not executed | ScrollFadeZone.AsWrittenNeverRestores | ScrollFadeZone.CorrectedTarget |
