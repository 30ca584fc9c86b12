/** The vertical marquee (src/ReactBits/InfiniteScroll.tsx): tilt styling, the
    band geometry, the wrap of every child's offset into [-totalHeight, totalHeight),
    and the effect that places, shifts and ticks the children. Offsets are whole pixels. */
module InfiniteScroll {

  datatype TiltDirection = TiltLeft | TiltRight
  datatype AutoplayDirection = Down | Up

  const LeftTilt: string := "rotateX(15deg) rotateZ(0deg) skewX(0deg)"
  const RightTilt: string := "rotateX(15deg) rotateZ(10deg) skewX(-10deg)"

  /** The CSS transform of the container. */
  function TiltTransform(isTilted: bool, dir: TiltDirection): (t: string)
    ensures t == "none" <==> !isTilted
    ensures isTilted ==> (t == LeftTilt <==> dir == TiltLeft)
    ensures isTilted ==> (t == RightTilt <==> dir == TiltRight)
  {
    assert |LeftTilt| != |RightTilt|;
    if !isTilted then "none"
    else match dir
      case TiltLeft => LeftTilt
      case TiltRight => RightTilt
  }

  /** A style property that is either absent or set to a value. */
  datatype Css = Unset | Set(value: string)

  datatype ContainerStyles = ContainerStyles(transform: string, transformOrigin: string,
                                             position: Css, left: Css, right: Css, margin: Css)

  /** The inline style of the container: tilted containers are centred, and the
      right tilt also pins `left` and `right` to 0. */
  function ContainerStylesFor(isTilted: bool, dir: TiltDirection): (s: ContainerStyles)
    ensures s.transform == TiltTransform(isTilted, dir) && s.transformOrigin == "center center"
    ensures s.position == (if isTilted then Set("relative") else Unset)
    ensures s.margin == (if isTilted then Set("0 auto") else Unset)
    ensures (s.left == Set("0")) == (isTilted && dir == TiltRight) && (s.left == Set("0") || s.left == Unset)
    ensures s.right == s.left
  {
    var t := TiltTransform(isTilted, dir);
    if isTilted then
      if dir == TiltRight then ContainerStyles(t, "center center", Set("relative"), Set("0"), Set("0"), Set("0 auto"))
      else ContainerStyles(t, "center center", Set("relative"), Unset, Unset, Set("0 auto"))
    else ContainerStyles(t, "center center", Unset, Unset, Unset, Unset)
  }

  /** Height of one slot: the measured item height plus its top margin. */
  function TotalItemHeight(itemHeight: int, margin: int): int
  {
    itemHeight + margin
  }

  /** Height of the whole band: n items and the n - 1 margins between them. */
  function TotalHeight(n: nat, itemHeight: int, margin: int): int
  {
    itemHeight * n + margin * (n - 1)
  }

  /** The band is n slots with the trailing margin taken off, that is n - 1 slots and one item. */
  lemma BandIsSlotsWithoutTrailingMargin(n: nat, itemHeight: int, margin: int)
    requires n > 0
    ensures TotalHeight(n, itemHeight, margin) == n * TotalItemHeight(itemHeight, margin) - margin
    ensures TotalHeight(n, itemHeight, margin) == (n - 1) * TotalItemHeight(itemHeight, margin) + itemHeight
  {
  }

  // ---- Euclidean remainder facts used by the wrap ----

  lemma MulAtLeast(m: int, k: int)
    requires m > 0 && k >= 1
    ensures m * k >= m
  {
    var j := k - 1;
    assert m * k == m * j + m;
  }

  lemma MulSmallIsZero(m: int, k: int)
    requires m > 0 && -m < m * k < m
    ensures k == 0
  {
    if k >= 1 {
      MulAtLeast(m, k);
      assert false;
    } else if k <= -1 {
      MulAtLeast(m, -k);
      assert false;
    }
  }

  lemma ModUnique(x: int, a: int, b: int, m: int)
    requires m > 0 && 0 <= b < m && x == m * a + b
    ensures x % m == b
  {
    var d, r := x / m, x % m;
    assert m * (a - d) == r - b;
    MulSmallIsZero(m, a - d);
  }

  lemma ModShiftMultiple(x: int, q: int, m: int)
    requires m > 0
    ensures (x + m * q) % m == x % m
  {
    var a := x / m;
    assert x + m * q == m * (a + q) + x % m;
    ModUnique(x + m * q, a + q, x % m, m);
  }

  /** `gsap.utils.wrap(lo, hi)`, taken to be lo + (v - lo) mod (hi - lo): the value
      in [lo, hi) that differs from v by a multiple of the range. */
  function Wrap(lo: int, hi: int, v: int): (r: int)
    requires lo < hi
    ensures lo <= r < hi
    ensures (r - v) % (hi - lo) == 0
    ensures lo <= v < hi ==> r == v
  {
    var m := hi - lo;
    var q := (v - lo) / m;
    assert lo + (v - lo) % m - v == m * (-q);
    ModShiftMultiple(0, -q, m);
    if lo <= v < hi then ModUnique(v - lo, 0, v - lo, m); lo + (v - lo) % m
    else lo + (v - lo) % m
  }

  lemma WrapIdempotent(lo: int, hi: int, v: int)
    requires lo < hi
    ensures Wrap(lo, hi, Wrap(lo, hi, v)) == Wrap(lo, hi, v)
  {
  }

  /** Wrapping between two shifts loses nothing: it equals one wrap of the total. */
  lemma {:induction false} WrapAbsorbsShift(lo: int, hi: int, v: int, d: int)
    requires lo < hi
    ensures Wrap(lo, hi, Wrap(lo, hi, v) + d) == Wrap(lo, hi, v + d)
  {
    var m := hi - lo;
    var q := (v - lo) / m;
    assert Wrap(lo, hi, v) + d - lo == (v + d - lo) + m * (-q);
    ModShiftMultiple(v + d - lo, -q, m);
  }

  /** Two values wrapped onto the same band keep their difference modulo the range. */
  lemma {:induction false} WrapKeepsDifference(lo: int, hi: int, u: int, v: int)
    requires lo < hi
    ensures (Wrap(lo, hi, u) - Wrap(lo, hi, v)) % (hi - lo) == (u - v) % (hi - lo)
  {
    var m := hi - lo;
    var qu := (u - lo) / m;
    var qv := (v - lo) / m;
    assert Wrap(lo, hi, u) == u - m * qu;
    assert Wrap(lo, hi, v) == v - m * qv;
    assert Wrap(lo, hi, u) - Wrap(lo, hi, v) == (u - v) + m * (qv - qu);
    ModShiftMultiple(u - v, qv - qu, m);
  }

  /** The wrap the effect builds: over [-totalHeight, totalHeight). */
  function BandWrap(total: int, v: int): int
    requires total > 0
  {
    Wrap(-total, total, v)
  }

  /** Item i starts one slot height below item i - 1. */
  function InitialOffsets(n: nat, slot: int): (r: seq<int>)
    ensures |r| == n
    ensures forall i :: 0 <= i < n ==> r[i] == i * slot
  {
    seq(n, i => i * slot)
  }

  /** With a positive item height and a non-negative slot, the unwrapped start
      positions already lie in the band. */
  lemma {:induction false} InitialOffsetsInBand(n: nat, itemHeight: int, margin: int)
    requires n > 0 && itemHeight > 0 && TotalItemHeight(itemHeight, margin) >= 0
    ensures forall i :: 0 <= i < n ==>
              -TotalHeight(n, itemHeight, margin) <= InitialOffsets(n, TotalItemHeight(itemHeight, margin))[i]
                                                   < TotalHeight(n, itemHeight, margin)
  {
    var slot := TotalItemHeight(itemHeight, margin);
    BandIsSlotsWithoutTrailingMargin(n, itemHeight, margin);
    forall i | 0 <= i < n
      ensures -TotalHeight(n, itemHeight, margin) <= i * slot < TotalHeight(n, itemHeight, margin)
    {
      var d := n - 1 - i;
      assert (n - 1) * slot == i * slot + d * slot;
      assert d * slot >= 0;
      assert i * slot >= 0;
    }
  }

  /** Every offset moved by d and wrapped into the band. */
  function Shifted(offsets: seq<int>, d: int, total: int): (r: seq<int>)
    requires total > 0
    ensures |r| == |offsets|
    ensures forall i :: 0 <= i < |r| ==> -total <= r[i] < total
    ensures forall i :: 0 <= i < |r| ==> (r[i] - (offsets[i] + d)) % (2 * total) == 0
  {
    seq(|offsets|, i requires 0 <= i < |offsets| => BandWrap(total, offsets[i] + d))
  }

  /** Two successive shifts land where one shift by their sum does. */
  lemma {:induction false} ShiftedCompose(offsets: seq<int>, a: int, b: int, total: int)
    requires total > 0
    ensures Shifted(Shifted(offsets, a, total), b, total) == Shifted(offsets, a + b, total)
  {
    var lhs := Shifted(Shifted(offsets, a, total), b, total);
    var rhs := Shifted(offsets, a + b, total);
    forall i | 0 <= i < |offsets|
      ensures lhs[i] == rhs[i]
    {
      WrapAbsorbsShift(-total, total, offsets[i] + a, b);
      assert offsets[i] + a + b == offsets[i] + (a + b);
    }
  }

  /** A shift moves all items together: their pairwise spacing is kept modulo the band's range. */
  lemma {:induction false} ShiftedKeepsSpacing(offsets: seq<int>, d: int, total: int, i: int, j: int)
    requires total > 0 && 0 <= i < |offsets| && 0 <= j < |offsets|
    ensures (Shifted(offsets, d, total)[i] - Shifted(offsets, d, total)[j]) % (2 * total)
            == (offsets[i] - offsets[j]) % (2 * total)
  {
    WrapKeepsDifference(-total, total, offsets[i] + d, offsets[j] + d);
    assert (offsets[i] + d) - (offsets[j] + d) == offsets[i] - offsets[j];
  }

  /** The distance one Observer change moves the items: wheel deltas are reversed,
      drags are scaled by 5 and other input by 10. */
  function InputDistance(deltaY: int, isDragging: bool, isWheel: bool): (dist: int)
    ensures isDragging ==> dist == 5 * (if isWheel then -deltaY else deltaY)
    ensures !isDragging ==> dist == 10 * (if isWheel then -deltaY else deltaY)
    ensures deltaY != 0 ==> (dist > 0 <==> (deltaY > 0) != isWheel)
  {
    var d := if isWheel then -deltaY else deltaY;
    if isDragging then d * 5 else d * 10
  }

  /** The shift one autoplay frame applies. */
  function AutoplayStep(speed: int, dir: AutoplayDirection): (s: int)
    ensures dir == Down ==> s == speed
    ensures dir == Up ==> s == -speed
  {
    speed * (if dir == Down then 1 else -1)
  }

  /** One mounted marquee: the `y` of each child, the Observer and the frame loop. */
  class Scroller {
    const count: nat
    const itemHeight: int
    const margin: int
    const autoplay: bool
    const autoplaySpeed: int
    const autoplayDirection: AutoplayDirection
    const pauseOnHover: bool
    const offsets: array<int>
    var observing: bool
    var ticking: bool

    function Band(): int
      reads this
    {
      TotalHeight(count, itemHeight, margin)
    }

    ghost predicate Valid()
      reads this, offsets
    {
      && offsets.Length == count
      && (count > 0 ==> Band() > 0)
      && (observing ==> count > 0)
      && (ticking ==> observing && autoplay)
    }

    constructor (count: nat, itemHeight: int, margin: int, autoplay: bool, autoplaySpeed: int,
                 autoplayDirection: AutoplayDirection, pauseOnHover: bool)
      requires count > 0 ==> TotalHeight(count, itemHeight, margin) > 0
      ensures Valid() && fresh(offsets)
      ensures this.count == count && this.itemHeight == itemHeight && this.margin == margin
      ensures this.autoplay == autoplay && this.autoplaySpeed == autoplaySpeed
      ensures this.autoplayDirection == autoplayDirection && this.pauseOnHover == pauseOnHover
      ensures offsets[..] == seq(count, _ => 0) && !observing && !ticking
    {
      this.count := count;
      this.itemHeight := itemHeight;
      this.margin := margin;
      this.autoplay := autoplay;
      this.autoplaySpeed := autoplaySpeed;
      this.autoplayDirection := autoplayDirection;
      this.pauseOnHover := pauseOnHover;
      offsets := new int[count](_ => 0);
      observing := false;
      ticking := false;
    }

    /** The effect body: nothing happens without items; otherwise each child is
        placed at its slot, the Observer is created and, with autoplay, the frame
        loop started. */
    method Start()
      requires Valid() && !observing
      modifies this, offsets
      ensures Valid()
      ensures count == 0 ==> !observing && !ticking && offsets[..] == old(offsets[..])
      ensures count > 0 ==> observing && ticking == autoplay
      ensures count > 0 ==> offsets[..] == InitialOffsets(count, TotalItemHeight(itemHeight, margin))
    {
      if count == 0 {
        return;
      }
      var slot := TotalItemHeight(itemHeight, margin);
      var i := 0;
      while i < count
        invariant 0 <= i <= count
        invariant forall k :: 0 <= k < i ==> offsets[k] == k * slot
      {
        offsets[i] := i * slot;
        i := i + 1;
      }
      observing := true;
      ticking := autoplay;
    }

    /** Moves every child by d and wraps it into the band. */
    method ShiftAll(d: int)
      requires Valid() && count > 0
      modifies offsets
      ensures offsets[..] == Shifted(old(offsets[..]), d, Band())
    {
      var total := Band();
      var i := 0;
      while i < count
        invariant 0 <= i <= count
        invariant forall k :: 0 <= k < i ==> offsets[k] == BandWrap(total, old(offsets[k]) + d)
        invariant forall k :: i <= k < count ==> offsets[k] == old(offsets[k])
      {
        offsets[i] := BandWrap(total, offsets[i] + d);
        i := i + 1;
      }
    }

    /** The Observer's `onChange`; the eased tween is taken at its end value. */
    method OnChange(deltaY: int, isDragging: bool, isWheel: bool)
      requires Valid()
      modifies offsets
      ensures Valid()
      ensures observing ==> offsets[..] == Shifted(old(offsets[..]), InputDistance(deltaY, isDragging, isWheel), Band())
      ensures !observing ==> offsets[..] == old(offsets[..])
    {
      if observing {
        ShiftAll(InputDistance(deltaY, isDragging, isWheel));
      }
    }

    /** One animation frame of the autoplay loop. */
    method Frame()
      requires Valid()
      modifies offsets
      ensures Valid()
      ensures ticking ==> offsets[..] == Shifted(old(offsets[..]), AutoplayStep(autoplaySpeed, autoplayDirection), Band())
      ensures !ticking ==> offsets[..] == old(offsets[..])
    {
      if ticking {
        ShiftAll(AutoplayStep(autoplaySpeed, autoplayDirection));
      }
    }

    /** Hover pauses the frame loop only with autoplay and `pauseOnHover`. */
    method MouseEnter()
      requires Valid()
      modifies this`ticking
      ensures Valid()
      ensures ticking == (old(ticking) && !pauseOnHover)
    {
      if observing && autoplay && pauseOnHover {
        ticking := false;
      }
    }

    method MouseLeave()
      requires Valid()
      modifies this`ticking
      ensures Valid()
      ensures ticking == (old(ticking) || (observing && autoplay && pauseOnHover))
    {
      if observing && autoplay && pauseOnHover {
        ticking := true;
      }
    }

    /** The effect cleanup: the Observer is killed and the frame cancelled. */
    method Stop()
      requires Valid()
      modifies this`observing, this`ticking
      ensures Valid() && !observing && !ticking
    {
      observing := false;
      ticking := false;
    }
  }

  /** A worked band: three 230-pixel items without margin give a band of 690,
      and a 2-pixel downward frame moves every item 2 pixels down. */
  lemma ThreeItemBandScenario()
    ensures TotalHeight(3, 230, 0) == 690
    ensures InitialOffsets(3, TotalItemHeight(230, 0)) == [0, 230, 460]
    ensures Shifted([0, 230, 460], AutoplayStep(2, Down), 690) == [2, 232, 462]
  {
    var s := Shifted([0, 230, 460], AutoplayStep(2, Down), 690);
    assert s[0] == 2 && s[1] == 232 && s[2] == 462;
  }
}
