/** The drag-paged carousel (src/ReactBits/Caroussel.tsx): its rendered track,
    its width arithmetic and the state machine over `currentIndex`. */
module Carousel {

  /** Drag-end thresholds and layout constants of the component. */
  const DragBuffer: real := 0.0
  const VelocityThreshold: real := 500.0
  const Gap: int := 16
  const ContainerPadding: int := 16
  const MobileBreakpoint: int := 768
  const SpringStiffness: int := 300
  const SpringDamping: int := 30

  datatype CarouselItem = CarouselItem(title: string, description: string, id: int, image: string)

  /** One slot of the rendered track. In loop mode an empty `items` array still
      gets the clone `items[0]`, which is `undefined`. */
  datatype Slot = Filled(item: CarouselItem) | Undefined

  /** The four entries the component falls back to when no items are passed. */
  function DefaultItems(): (r: seq<CarouselItem>)
    ensures |r| == 4
    ensures forall i :: 0 <= i < 4 ==> r[i].id == i + 1
  {
    [ CarouselItem("Site Vitrine", "Image de marque percutante avec optimisation SEO avancée", 1, "/vitrine.png"),
      CarouselItem("Solution de Réservation", "Plateforme complète avec portail client et interface d'administration mobile", 2, "/rdv.png"),
      CarouselItem("Design 3D", "Icônes et modèles 3D sur mesure pour votre identité visuelle", 3, "/3d.png"),
      CarouselItem("Motion Design", "Animations vidéo pour campagnes publicitaires et contenus pédagogiques", 4, "/images/motion-design.jpg") ]
  }

  /** Number of slots on the track: one more than the items in loop mode. */
  function SlotCount(n: nat, loop: bool): nat
  {
    if loop then n + 1 else n
  }

  /** The track: the items, followed in loop mode by a clone of the first one. */
  function RenderedItems(items: seq<CarouselItem>, loop: bool): (r: seq<Slot>)
    ensures |r| == SlotCount(|items|, loop)
    ensures forall i :: 0 <= i < |items| ==> r[i] == Filled(items[i])
    ensures loop && |items| > 0 ==> r[|items|] == r[0]
    ensures loop && |items| == 0 ==> r == [Undefined]
  {
    var own := seq(|items|, i requires 0 <= i < |items| => Filled(items[i]));
    if loop then own + [if |items| > 0 then Filled(items[0]) else Undefined] else own
  }

  function Min(a: int, b: int): int { if a <= b then a else b }
  function Max(a: int, b: int): int { if a >= b then a else b }

  /** The container width chosen by `updateDimensions` for a viewport width. */
  function ContainerWidthFor(innerWidth: int, baseWidth: int): (w: int)
    ensures w <= baseWidth
    ensures innerWidth >= MobileBreakpoint ==> w == baseWidth
    ensures innerWidth < MobileBreakpoint ==> w <= innerWidth - 32 && (w == innerWidth - 32 || w == baseWidth)
  {
    if innerWidth < MobileBreakpoint then Min(innerWidth - 32, baseWidth) else baseWidth
  }

  /** Width of one item: the container without its padding on both sides. */
  function ItemWidth(containerWidth: int): int
  {
    containerWidth - ContainerPadding * 2
  }

  /** Distance between the left edges of two neighbouring items. */
  function TrackItemOffset(containerWidth: int): int
  {
    ItemWidth(containerWidth) + Gap
  }

  /** The track position the spring animates to for a given index. */
  function TrackTarget(index: int, containerWidth: int): int
  {
    -(index * TrackItemOffset(containerWidth))
  }

  lemma TrackGeometry(index: int, containerWidth: int)
    ensures TrackItemOffset(containerWidth) == containerWidth - 32 + Gap
    ensures TrackTarget(0, containerWidth) == 0
    ensures TrackTarget(index, containerWidth) - TrackTarget(index + 1, containerWidth) == TrackItemOffset(containerWidth)
  {
  }

  /** Horizontal drag limits: unconstrained in loop mode. */
  datatype DragConstraints = Unconstrained | Bounded(left: int, right: int)

  function DragConstraintsFor(loop: bool, slots: nat, containerWidth: int): DragConstraints
  {
    if loop then Unconstrained
    else Bounded(-TrackItemOffset(containerWidth) * (slots - 1), 0)
  }

  lemma MulMonotone(a: int, b: int, c: int)
    requires 0 <= a <= b && c >= 0
    ensures a * c <= b * c
  {
    var d := b - a;
    assert b * c == a * c + d * c;
  }

  /** Outside loop mode, the animated position of every slot lies within the drag limits. */
  lemma {:induction false} TargetWithinDragConstraints(index: int, slots: nat, containerWidth: int)
    requires 0 <= index < slots
    requires TrackItemOffset(containerWidth) >= 0
    ensures DragConstraintsFor(false, slots, containerWidth).left <= TrackTarget(index, containerWidth)
    ensures TrackTarget(index, containerWidth) <= DragConstraintsFor(false, slots, containerWidth).right
  {
    var t := TrackItemOffset(containerWidth);
    MulMonotone(index, slots - 1, t);
    MulMonotone(0, index, t);
    assert -t * (slots - 1) == -((slots - 1) * t);
  }

  /** Next index on an autoplay tick. `n` is `items.length`. */
  function TickNext(prev: int, n: nat, loop: bool): (r: int)
    // loop mode: the successor on a ring of n + 1 slots (last item -> clone -> 0)
    ensures loop && 0 <= prev <= n ==> r == (prev + 1) % (n + 1)
    // plain mode: the successor, held at the last item
    ensures !loop && 0 <= prev < n ==> r == Min(prev + 1, n - 1)
    ensures n > 0 && 0 <= prev < SlotCount(n, loop) ==> 0 <= r < SlotCount(n, loop)
  {
    if prev == n - 1 && loop then prev + 1
    else if prev == SlotCount(n, loop) - 1 then (if loop then 0 else prev)
    else prev + 1
  }

  /** With no items and no loop the tick never meets `carouselItems.length - 1`
      (which is -1), so the index climbs on every tick. */
  lemma EmptyTrackTickClimbs(prev: int)
    requires prev >= 0
    ensures TickNext(prev, 0, false) == prev + 1
  {
  }

  /** Autoplay runs only when enabled and not paused by the pointer. */
  predicate AutoplayActive(autoplay: bool, pauseOnHover: bool, isHovered: bool)
  {
    autoplay && (!pauseOnHover || !isHovered)
  }

  datatype DragDirection = Forward | Backward | Stay

  /** Which way a drag-end moves: left (negative) wins when both thresholds fire. */
  function DragDirectionOf(offset: real, velocity: real): (d: DragDirection)
    ensures d == Forward <==> (offset < -DragBuffer || velocity < -VelocityThreshold)
    ensures d == Backward <==> (!(offset < -DragBuffer || velocity < -VelocityThreshold)
                                && (offset > DragBuffer || velocity > VelocityThreshold))
  {
    if offset < -DragBuffer || velocity < -VelocityThreshold then Forward
    else if offset > DragBuffer || velocity > VelocityThreshold then Backward
    else Stay
  }

  /** On a ring of `n` items, the predecessor of slot `cur` (the clone counting as slot 0). */
  lemma RingPredecessor(cur: int, n: int)
    ensures n > 0 && 0 <= cur <= n ==> (cur + n - 1) % n == (if cur == 0 then n - 1 else cur - 1)
  {
    if n > 0 && 0 < cur <= n {
      assert cur + n - 1 == (cur - 1) + n;
    }
  }

  /** Next index on drag-end. */
  function DragNext(cur: int, n: nat, loop: bool, offset: real, velocity: real): (r: int)
    ensures DragDirectionOf(offset, velocity) == Stay ==> r == cur
    // forward: one slot on, held at the last slot (the clone in loop mode)
    ensures (DragDirectionOf(offset, velocity) == Forward && 0 <= cur < SlotCount(n, loop))
              ==> r == Min(cur + 1, SlotCount(n, loop) - 1)
    // backward, loop mode: the predecessor of the item shown, on a ring of n items
    ensures (DragDirectionOf(offset, velocity) == Backward && loop && n > 0 && 0 <= cur <= n)
              ==> r == (cur + n - 1) % n
    // backward, plain mode: one slot back, held at 0
    ensures DragDirectionOf(offset, velocity) == Backward && !loop ==> r == Max(cur - 1, 0)
    ensures n > 0 && 0 <= cur < SlotCount(n, loop) ==> 0 <= r < SlotCount(n, loop)
  {
    match DragDirectionOf(offset, velocity)
    case Forward =>
      if loop && cur == n - 1 then cur + 1 else Min(cur + 1, SlotCount(n, loop) - 1)
    case Backward =>
      RingPredecessor(cur, n);
      if loop && cur == 0 then n - 1 else Max(cur - 1, 0)
    case Stay => cur
  }

  /** `handleAnimationComplete` resets only on the clone in loop mode. */
  predicate ResetsOnComplete(cur: int, n: nat, loop: bool)
  {
    loop && cur == SlotCount(n, loop) - 1
  }

  /** JavaScript's `%`: the remainder takes the sign of the dividend. */
  function JsRem(a: int, b: int): (r: int)
    requires b != 0
    ensures a >= 0 && b > 0 ==> 0 <= r < b && r == a % b
  {
    if a >= 0 then a % b else -((-a) % b)
  }

  /** The indicator dot that `currentIndex % items.length` highlights. */
  function HighlightedDot(cur: int, n: nat): (d: int)
    requires n > 0
    ensures 0 <= cur < n ==> d == cur
    ensures cur == n ==> d == 0
    ensures cur >= 0 ==> 0 <= d < n
  {
    JsRem(cur, n)
  }

  /** The dots among `n` drawn highlighted (`currentIndex % items.length === index`):
      one for any index on the track, the first one for the clone. */
  function HighlightedDots(cur: int, n: nat): (r: set<int>)
    requires n > 0
    ensures forall d :: d in r <==> 0 <= d < n && d == JsRem(cur, n)
    ensures |r| <= 1
    ensures cur >= 0 ==> r == {HighlightedDot(cur, n)}
    ensures 0 <= cur < n ==> r == {cur}
    ensures cur == n ==> r == {0}
  {
    var h := HighlightedDot(cur, n);
    if 0 <= h < n then {h} else {}
  }

  /** Motion settings of the track: zero duration while resetting from the clone. */
  datatype Transition = Instant | Spring(stiffness: int, damping: int)

  function EffectiveTransition(isResetting: bool): (t: Transition)
    ensures t == Instant <==> isResetting
    ensures !isResetting ==> t == Spring(SpringStiffness, SpringDamping)
    ensures !isResetting ==> t.stiffness == 300 && t.damping == 30
  {
    if isResetting then Instant else Spring(SpringStiffness, SpringDamping)
  }

  /** The mutable state of one mounted carousel. */
  class CarouselState {
    const items: seq<CarouselItem>
    const baseWidth: int
    const autoplay: bool
    const autoplayDelay: int
    const pauseOnHover: bool
    const loop: bool
    const round: bool

    var containerWidth: int
    var isMobile: bool
    var currentIndex: int
    var x: int
    var isHovered: bool
    var isResetting: bool

    /** With at least one item the index stays on the track. */
    ghost predicate Valid()
      reads this
    {
      |items| > 0 ==> 0 <= currentIndex < SlotCount(|items|, loop)
    }

    constructor (items: seq<CarouselItem>, baseWidth: int, autoplay: bool, autoplayDelay: int,
                 pauseOnHover: bool, loop: bool, round: bool)
      ensures Valid()
      ensures this.items == items && this.baseWidth == baseWidth && this.autoplay == autoplay
      ensures this.autoplayDelay == autoplayDelay && this.pauseOnHover == pauseOnHover
      ensures this.loop == loop && this.round == round
      ensures containerWidth == baseWidth && !isMobile && currentIndex == 0 && x == 0
      ensures !isHovered && !isResetting
    {
      this.items := items;
      this.baseWidth := baseWidth;
      this.autoplay := autoplay;
      this.autoplayDelay := autoplayDelay;
      this.pauseOnHover := pauseOnHover;
      this.loop := loop;
      this.round := round;
      containerWidth := baseWidth;
      isMobile := false;
      currentIndex := 0;
      x := 0;
      isHovered := false;
      isResetting := false;
    }

    /** The rendered track of this carousel. */
    function Track(): seq<Slot>
      reads this
    {
      RenderedItems(items, loop)
    }

    /** The resize handler. */
    method UpdateDimensions(innerWidth: int)
      modifies this`isMobile, this`containerWidth
      ensures isMobile == (innerWidth < MobileBreakpoint)
      ensures containerWidth == ContainerWidthFor(innerWidth, baseWidth)
    {
      var mobile := innerWidth < MobileBreakpoint;
      isMobile := mobile;
      if mobile {
        containerWidth := Min(innerWidth - 32, baseWidth);
      } else {
        containerWidth := baseWidth;
      }
    }

    /** Hover listeners exist only with `pauseOnHover`. */
    method MouseEnter()
      modifies this`isHovered
      ensures isHovered == (pauseOnHover || old(isHovered))
    {
      if pauseOnHover {
        isHovered := true;
      }
    }

    method MouseLeave()
      modifies this`isHovered
      ensures isHovered == (!pauseOnHover && old(isHovered))
    {
      if pauseOnHover {
        isHovered := false;
      }
    }

    /** One autoplay interval firing; no interval exists while autoplay is inactive. */
    method AutoplayTick()
      requires Valid()
      modifies this`currentIndex
      ensures Valid()
      ensures currentIndex == if AutoplayActive(autoplay, pauseOnHover, isHovered)
                              then TickNext(old(currentIndex), |items|, loop)
                              else old(currentIndex)
    {
      if AutoplayActive(autoplay, pauseOnHover, isHovered) {
        var prev := currentIndex;
        if prev == |items| - 1 && loop {
          currentIndex := prev + 1;
        } else if prev == |Track()| - 1 {
          currentIndex := if loop then 0 else prev;
        } else {
          currentIndex := prev + 1;
        }
      }
    }

    /** The spring reached `TrackTarget(currentIndex)`; on the clone in loop mode
        the handler jumps back to slot 0 with a zero-duration transition. */
    method AnimationComplete()
      requires Valid()
      modifies this`x, this`isResetting, this`currentIndex
      ensures Valid()
      ensures x == TrackTarget(currentIndex, containerWidth)
      ensures ResetsOnComplete(old(currentIndex), |items|, loop) ==> isResetting && currentIndex == 0
      ensures !ResetsOnComplete(old(currentIndex), |items|, loop) ==>
                currentIndex == old(currentIndex) && isResetting == old(isResetting)
    {
      x := TrackTarget(currentIndex, containerWidth);
      if loop && currentIndex == |Track()| - 1 {
        isResetting := true;
        x := 0;
        currentIndex := 0;
      }
    }

    /** The 50 ms timer armed by a reset restores the spring transition. */
    method ResetTimerElapsed()
      modifies this`isResetting
      ensures !isResetting
    {
      isResetting := false;
    }

    method DragEnd(offset: real, velocity: real)
      requires Valid()
      modifies this`currentIndex
      ensures Valid()
      ensures currentIndex == DragNext(old(currentIndex), |items|, loop, offset, velocity)
    {
      if offset < -DragBuffer || velocity < -VelocityThreshold {
        if loop && currentIndex == |items| - 1 {
          currentIndex := currentIndex + 1;
        } else {
          currentIndex := Min(currentIndex + 1, |Track()| - 1);
        }
      } else if offset > DragBuffer || velocity > VelocityThreshold {
        if loop && currentIndex == 0 {
          currentIndex := |items| - 1;
        } else {
          currentIndex := Max(currentIndex - 1, 0);
        }
      }
    }

    /** Clicking indicator dot `dot` (one dot per item). */
    method DotClick(dot: int)
      requires 0 <= dot < |items|
      requires Valid()
      modifies this`currentIndex
      ensures Valid()
      ensures currentIndex == dot
      ensures HighlightedDots(currentIndex, |items|) == {dot}
    {
      currentIndex := dot;
    }
  }

  /** The scenario of four items in loop mode: four forward flicks from slot 0 reach
      the clone at slot 4, and the animation-complete reset brings the index to 0. */
  lemma LoopScenario()
    ensures DragNext(0, 4, true, 0.0, -600.0) == 1
    ensures DragNext(1, 4, true, 0.0, -600.0) == 2
    ensures DragNext(2, 4, true, 0.0, -600.0) == 3
    ensures DragNext(3, 4, true, 0.0, -600.0) == 4
    ensures ResetsOnComplete(4, 4, true)
    ensures HighlightedDot(4, 4) == 0
    ensures HighlightedDots(4, 4) == {0}
  {
  }
}
