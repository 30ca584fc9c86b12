/** The fade band around the fixed logo (src/components/ScrollFadeZone.tsx).
    Each observed child that nears the logo is faded and nudged down by an
    amount that grows with its overlap with an exclusion zone drawn around
    the logo. Lengths are exact reals. */
module ScrollFadeZone {

  const LogoHeight: real := 100.0
  const DefaultMarginY: real := 50.0

  function Max(a: real, b: real): real
  {
    if a >= b then a else b
  }

  function Min(a: real, b: real): real
  {
    if a <= b then a else b
  }

  /** The logo's estimated band in viewport coordinates; `{ y: 0, height: 0 }` before measuring. */
  datatype LogoPosition = LogoPosition(y: real, height: real)

  function UnmeasuredLogo(): LogoPosition
  {
    LogoPosition(0.0, 0.0)
  }

  /** `updateLogoPosition`: a 100-pixel band centred half a pixel above mid-viewport. */
  function LogoBand(innerHeight: real): (p: LogoPosition)
    ensures p.height == LogoHeight
    ensures p.y + p.height / 2.0 == innerHeight / 2.0 - 0.5
    ensures p.y == innerHeight / 2.0 - 0.5 - 50.0
  {
    var logoY := innerHeight / 2.0 - 0.5;
    LogoPosition(logoY - LogoHeight / 2.0, LogoHeight)
  }

  datatype Zone = Zone(top: real, bottom: real)

  function ZoneHeight(z: Zone): real
  {
    z.bottom - z.top
  }

  /** The logo band widened by `marginY` above and below. */
  function ExclusionZone(logo: LogoPosition, marginY: real): (z: Zone)
    ensures z.top == logo.y - marginY
    ensures z.top + ZoneHeight(z) == z.bottom
    ensures ZoneHeight(z) == logo.height + 2.0 * marginY
  {
    Zone(logo.y - marginY, logo.y + logo.height + marginY)
  }

  /** `threshold: Array.from({ length: 20 }, (_, i) => i / 20)`. */
  function Thresholds(): (r: seq<real>)
    ensures |r| == 20
    ensures forall i :: 0 <= i < 20 ==> r[i] == i as real / 20.0
    ensures r[0] == 0.0 && r[19] < 1.0
    ensures forall i, j :: 0 <= i < j < 20 ==> r[i] < r[j]
  {
    seq(20, i => i as real / 20.0)
  }

  /** An entry's bounding box, viewport coordinates. */
  datatype Rect = Rect(top: real, bottom: real)

  /** The target written by `gsap.to`: opacity and vertical shift. */
  datatype Style = Style(opacity: real, y: real)

  const Restored: Style := Style(1.0, 0.0)

  // ---------------------------------------------------------------------------
  // The overlap rule as the component writes it.

  function TopOverlap(z: Zone, r: Rect): (o: real)
    ensures o >= 0.0
    ensures o > 0.0 <==> r.top < z.bottom
    ensures o > 0.0 ==> o == z.bottom - r.top
  {
    Max(0.0, z.bottom - r.top)
  }

  function BottomOverlap(z: Zone, r: Rect): (o: real)
    ensures o >= 0.0
    ensures o > 0.0 <==> r.bottom > z.top
    ensures o > 0.0 ==> o == r.bottom - z.top
  {
    Max(0.0, r.bottom - z.top)
  }

  /** An overlap at least as long as the zone fills it. */
  lemma QuotientAtLeastOne(m: real, h: real)
    ensures 0.0 < h <= m ==> m / h >= 1.0
  {
    if 0.0 < h <= m {
      var q := m / h;
      assert q * h == m;
    }
  }

  /** `Math.min(1, m / h)` for a positive overlap `m`. A zero zone height makes
      the quotient +Infinity, which the minimum brings to 1. */
  function AsWrittenPercentage(m: real, h: real): (p: real)
    requires m > 0.0
    ensures p <= 1.0
    ensures h > 0.0 ==> 0.0 < p && (p == 1.0 || p == m / h)
    ensures h > 0.0 && m >= h ==> p == 1.0
    ensures h > 0.0 && m < h ==> p == m / h
    ensures h == 0.0 ==> p == 1.0
    ensures h < 0.0 ==> p < 0.0 && p == m / h
  {
    if h == 0.0 then 1.0
    else
      QuotientAtLeastOne(m, h);
      Min(1.0, m / h)
  }

  /** Opacity and shift for an overlap fraction `p`. */
  function FadeFor(p: real): (s: Style)
    ensures 0.0 <= p <= 1.0 ==> 0.1 <= s.opacity <= 1.0 && 0.0 <= s.y <= 10.0
    ensures s.opacity == 1.0 - 0.9 * p && s.y == 10.0 * p
    ensures s.opacity == 1.0 - 0.09 * s.y
    ensures p == 0.0 <==> s == Restored
  {
    Style(1.0 - p * 0.9, p * 10.0)
  }

  predicate AsWrittenInZone(z: Zone, r: Rect)
  {
    TopOverlap(z, r) > 0.0 || BottomOverlap(z, r) > 0.0
  }

  /** The body of `handleIntersection` for one entry, as written. */
  function AsWrittenTarget(z: Zone, r: Rect): (s: Style)
    ensures !AsWrittenInZone(z, r) ==> s == Restored
    ensures ZoneHeight(z) >= 0.0 ==> 0.1 <= s.opacity <= 1.0 && 0.0 <= s.y <= 10.0
    ensures AsWrittenInZone(z, r) && ZoneHeight(z) >= 0.0 ==> s.opacity < 1.0
    // inside the zone the fade is the larger of the two overlaps over the zone height
    ensures AsWrittenInZone(z, r) ==>
              s == FadeFor(AsWrittenPercentage(Max(TopOverlap(z, r), BottomOverlap(z, r)), ZoneHeight(z)))
    ensures AsWrittenInZone(z, r) && ZoneHeight(z) > 0.0 ==>
              s.y == 10.0 * Min(1.0, Max(TopOverlap(z, r), BottomOverlap(z, r)) / ZoneHeight(z))
  {
    var top := TopOverlap(z, r);
    var bottom := BottomOverlap(z, r);
    if top > 0.0 || bottom > 0.0 then
      FadeFor(AsWrittenPercentage(Max(top, bottom), ZoneHeight(z)))
    else
      Restored
  }

  /** Every box with a non-negative height meets one of the two tests once the
      zone has a positive height, so the restoring branch is never taken. */
  lemma AsWrittenNeverRestores(z: Zone, r: Rect)
    requires ZoneHeight(z) > 0.0 && r.top <= r.bottom
    ensures AsWrittenInZone(z, r)
    ensures AsWrittenTarget(z, r).opacity < 1.0
  {
    if TopOverlap(z, r) == 0.0 {
      assert r.top >= z.bottom;
      assert r.bottom > z.top;
    }
  }

  /** A box far below the logo on an 800-pixel viewport is faded to the minimum,
      where a box that meets the band nowhere should keep full opacity. */
  lemma AsWrittenFadesDistantBox()
    ensures ExclusionZone(LogoBand(800.0), DefaultMarginY) == Zone(299.5, 499.5)
    ensures AsWrittenTarget(Zone(299.5, 499.5), Rect(1000.0, 1100.0)) == Style(0.1, 10.0)
    ensures CorrectedTarget(Zone(299.5, 499.5), Rect(1000.0, 1100.0)) == Restored
  {
    var z := Zone(299.5, 499.5);
    var r := Rect(1000.0, 1100.0);
    assert BottomOverlap(z, r) == 800.5;
    assert Max(TopOverlap(z, r), BottomOverlap(z, r)) == 800.5;
    assert AsWrittenPercentage(800.5, 200.0) == 1.0;
  }

  /** A box inside the band is faded less than the distant one above. */
  lemma AsWrittenFadesNearBoxLess()
    ensures AsWrittenTarget(Zone(299.5, 499.5), Rect(350.0, 450.0)).opacity
            > AsWrittenTarget(Zone(299.5, 499.5), Rect(1000.0, 1100.0)).opacity
  {
    var z := Zone(299.5, 499.5);
    var near := Rect(350.0, 450.0);
    assert TopOverlap(z, near) == 149.5 && BottomOverlap(z, near) == 150.5;
    assert AsWrittenPercentage(150.5, 200.0) == 150.5 / 200.0;
    AsWrittenFadesDistantBox();
  }

  // ---------------------------------------------------------------------------
  // The rule as intended: fade by the length the box shares with the zone.

  /** The length a box shares with the zone. */
  function Intersection(z: Zone, r: Rect): (o: real)
    ensures o >= 0.0
    ensures o > 0.0 <==> r.top < z.bottom && z.top < r.bottom && r.top < r.bottom && z.top < z.bottom
    ensures o <= Max(0.0, ZoneHeight(z))
    // a box inside the zone shares its whole height
    ensures z.top <= r.top <= r.bottom <= z.bottom ==> o == r.bottom - r.top
    // a box covering the zone shares the zone's whole height
    ensures r.top <= z.top <= z.bottom <= r.bottom ==> o == ZoneHeight(z)
    // a box across the zone's top edge shares what lies below that edge
    ensures r.top <= z.top <= r.bottom <= z.bottom ==> o == r.bottom - z.top
    // a box across the zone's bottom edge shares what lies above that edge
    ensures z.top <= r.top <= z.bottom <= r.bottom ==> o == z.bottom - r.top
  {
    Max(0.0, Min(r.bottom, z.bottom) - Max(r.top, z.top))
  }

  /** Division by a positive length keeps the order, strictly too. */
  lemma DivideKeepsOrder(a: real, b: real, h: real)
    ensures 0.0 < h && a <= b ==> a / h <= b / h
    ensures 0.0 < h && a < b ==> a / h < b / h
  {
    if 0.0 < h {
      assert (a / h) * h == a && (b / h) * h == b;
    }
  }

  /** The corrected target, the one the fade zone below applies. */
  function CorrectedTarget(z: Zone, r: Rect): (s: Style)
    // a box that meets the zone nowhere is restored
    ensures (r.bottom <= z.top || r.top >= z.bottom) ==> s == Restored
    // the fade always stays within its range
    ensures 0.1 <= s.opacity <= 1.0 && 0.0 <= s.y <= 10.0
    ensures s.opacity == 1.0 - 0.09 * s.y
    // it is faded exactly when it shares some length with the zone
    ensures s.opacity < 1.0 <==> Intersection(z, r) > 0.0
    // a box covering the zone is faded the most
    ensures (r.top <= z.top && z.bottom <= r.bottom && z.top < z.bottom) ==> s == Style(0.1, 10.0)
    // in between, the fade is proportional to the shared length
    ensures z.top < z.bottom ==> s == FadeFor(Intersection(z, r) / ZoneHeight(z))
    ensures z.top < z.bottom ==> s.y == 10.0 * Intersection(z, r) / ZoneHeight(z)
  {
    var o := Intersection(z, r);
    if o > 0.0 then
      QuotientAtLeastOne(o, ZoneHeight(z));
      DivideKeepsOrder(o, ZoneHeight(z), ZoneHeight(z));
      FadeFor(Min(1.0, o / ZoneHeight(z)))
    else Restored
  }

  /** More shared length never gives a weaker fade, and strictly more gives a stronger one. */
  lemma CorrectedFadeMonotone(z: Zone, r1: Rect, r2: Rect)
    requires Intersection(z, r1) <= Intersection(z, r2)
    ensures CorrectedTarget(z, r1).y <= CorrectedTarget(z, r2).y
    ensures CorrectedTarget(z, r1).opacity >= CorrectedTarget(z, r2).opacity
    ensures Intersection(z, r1) < Intersection(z, r2) ==>
              CorrectedTarget(z, r1).opacity > CorrectedTarget(z, r2).opacity
  {
    if z.top < z.bottom {
      DivideKeepsOrder(Intersection(z, r1), Intersection(z, r2), ZoneHeight(z));
    }
  }

  /** Two boxes sharing 10 and 90 pixels of a 100-pixel zone: the second is faded nine times as far. */
  lemma ProportionalScenario()
    ensures CorrectedTarget(Zone(0.0, 100.0), Rect(-50.0, 10.0)) == Style(0.91, 1.0)
    ensures CorrectedTarget(Zone(0.0, 100.0), Rect(10.0, 150.0)) == Style(0.19, 9.0)
  {
  }

  // ---------------------------------------------------------------------------
  // One batch of observer entries.

  datatype Entry = Entry(child: nat, rect: Rect)

  predicate ChildrenIn(entries: seq<Entry>, n: nat)
  {
    forall i :: 0 <= i < |entries| ==> entries[i].child < n
  }

  /** The children's styles after the entries' tweens, applied in order. */
  function AfterEntries(styles: seq<Style>, z: Zone, entries: seq<Entry>): (r: seq<Style>)
    requires ChildrenIn(entries, |styles|)
    ensures |r| == |styles|
    decreases |entries|
  {
    if entries == [] then styles
    else
      var last := entries[|entries| - 1];
      AfterEntries(styles, z, entries[..|entries| - 1])[last.child := CorrectedTarget(z, last.rect)]
  }

  /** The position of the last entry for `child`, or -1. */
  function LastEntryFor(entries: seq<Entry>, child: nat): (k: int)
    ensures -1 <= k < |entries|
    ensures k >= 0 ==> entries[k].child == child
    ensures forall j :: k < j < |entries| ==> entries[j].child != child
    decreases |entries|
  {
    if entries == [] then -1
    else if entries[|entries| - 1].child == child then |entries| - 1
    else LastEntryFor(entries[..|entries| - 1], child)
  }

  /** A child ends with the target of its last entry, and is untouched without one. */
  lemma {:induction false} LastEntryWins(styles: seq<Style>, z: Zone, entries: seq<Entry>, child: nat)
    requires ChildrenIn(entries, |styles|) && child < |styles|
    ensures var k := LastEntryFor(entries, child);
      AfterEntries(styles, z, entries)[child]
        == if k < 0 then styles[child] else CorrectedTarget(z, entries[k].rect)
    decreases |entries|
  {
    if entries != [] {
      var init := entries[..|entries| - 1];
      assert ChildrenIn(init, |styles|);
      LastEntryWins(styles, z, init, child);
      if entries[|entries| - 1].child != child {
        assert LastEntryFor(entries, child) == LastEntryFor(init, child);
        var k := LastEntryFor(init, child);
        if k >= 0 {
          assert entries[k] == init[k];
        }
      }
    }
  }

  class FadeZone {
    const marginY: real
    var logo: LogoPosition
    var styles: seq<Style>

    /** The first render: logo not yet measured. */
    constructor (marginY: real, styles: seq<Style>)
      ensures this.marginY == marginY && logo == UnmeasuredLogo() && this.styles == styles
    {
      this.marginY := marginY;
      logo := LogoPosition(0.0, 0.0);
      this.styles := styles;
    }

    function CurrentZone(): Zone
      reads this
    {
      ExclusionZone(logo, marginY)
    }

    /** The mount/resize handler. */
    method UpdateLogoPosition(innerHeight: real)
      modifies this`logo
      ensures logo == LogoBand(innerHeight)
    {
      var logoY := innerHeight / 2.0 - 0.5;
      logo := LogoPosition(logoY - LogoHeight / 2.0, LogoHeight);
    }

    /** `handleIntersection`: one tween per entry, in order, against the current zone. */
    method HandleIntersection(entries: seq<Entry>)
      requires ChildrenIn(entries, |styles|)
      modifies this`styles
      ensures styles == AfterEntries(old(styles), CurrentZone(), entries)
    {
      var zone := ExclusionZone(logo, marginY);
      var i := 0;
      while i < |entries|
        invariant 0 <= i <= |entries|
        invariant ChildrenIn(entries[..i], |old(styles)|)
        invariant styles == AfterEntries(old(styles), zone, entries[..i])
      {
        var e := entries[i];
        var top := Min(e.rect.bottom, zone.bottom);
        var overlap := Max(0.0, top - Max(e.rect.top, zone.top));
        var target := Restored;
        if overlap > 0.0 {
          target := FadeFor(Min(1.0, overlap / (zone.bottom - zone.top)));
        }
        assert entries[..i + 1][..i] == entries[..i];
        styles := styles[e.child := target];
        i := i + 1;
      }
      assert entries[..i] == entries;
    }
  }
}
