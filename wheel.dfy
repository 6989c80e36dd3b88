/**
 * The pure rules of the game screen (src/index.js): the container's fixed
 * configuration, the polar angle of the ball over the disk and the slice it
 * falls in, the painted disk segments, the bar glow levels, the glow-offset
 * cycle, the poses of the bars and walls for a wheel rotation, and
 * `mapRange`. Angles are reals in radians; positions are polar
 * (radius, angle) pairs, so no sine or cosine is ever evaluated.
 */
module Wheel {
  import opened Numbers
  import opened Entries

  /** `defaultCfg.container` (src/index.js:121-130). */
  const NbBars: nat := 30
  const Radius: real := 20.0
  const MarkBarHeight: real := 1.02

  // ---------------------------------------------------------------- slices

  /** The angle of one of `n` equal slices of the full turn. */
  function SliceWidth(n: nat): (w: real)
    requires n >= 1
    ensures w > 0.0
    ensures n as real * w == 2.0 * PI
  {
    2.0 * PI / n as real
  }

  /** Slice `i` of `n` covers `p`, both ends included. */
  predicate InSlice(i: int, n: nat, p: real)
    requires n >= 1
  {
    i as real * SliceWidth(n) <= p <= (i + 1) as real * SliceWidth(n)
  }

  /**
   * The normalised polar coordinate of the ball: `theta - PI`, plus a full
   * turn when negative, where `theta` is the `atan2` of the hit point's uv.
   */
  function PolarCoord(theta: real): (p: real)
    requires -PI <= theta <= PI
    ensures 0.0 <= p < 2.0 * PI
    ensures p == theta - PI || p == theta + PI
  {
    var p := theta - PI;
    if p < 0.0 then p + 2.0 * PI else p
  }

  lemma ScaleOrder(a: real, b: real, w: real)
    requires w > 0.0
    ensures a * w <= b * w <==> a <= b
    ensures a * w < b * w <==> a < b
  {
  }

  /** Covering, read in slice units. */
  lemma InSliceUnits(i: int, n: nat, p: real)
    requires n >= 1
    ensures InSlice(i, n, p) <==> i as real <= p / SliceWidth(n) <= (i + 1) as real
  {
    var w := SliceWidth(n);
    var q := p / w;
    assert w > 0.0;
    assert q * w == p;
    ScaleOrder(i as real, q, w);
    ScaleOrder(q, (i + 1) as real, w);
    assert InSlice(i, n, p) <==> i as real * w <= p <= (i + 1) as real * w;
  }

  /**
   * The slice a scan over all `n` slices settles on when it keeps the LAST
   * slice that covers `p`: the floor of `p / slice`. On a boundary two slices
   * cover `p` and the higher one wins.
   */
  function SliceIndex(p: real, n: nat): (k: nat)
    requires n >= 1 && 0.0 <= p < 2.0 * PI
    ensures k < n
    ensures InSlice(k, n, p)
    ensures forall j :: k < j < n ==> !InSlice(j, n, p)
    ensures forall j :: 0 <= j < n && InSlice(j, n, p) ==> j == k || j + 1 == k
  {
    var w := SliceWidth(n);
    var q := p / w;
    var k := q.Floor;
    assert k as real <= q < (k + 1) as real;
    assert q < n as real by {
      assert q * w == p;
      ScaleOrder(q, n as real, w);
    }
    InSliceUnits(k, n, p);
    assert forall j: int :: InSlice(j, n, p) ==> k - 1 <= j <= k by {
      forall j: int | InSlice(j, n, p) ensures k - 1 <= j <= k {
        InSliceUnits(j, n, p);
        assert j as real < (k + 1) as real;
        assert (k - 1) as real < (j + 1) as real;
      }
    }
    k
  }

  // ------------------------------------------------------------ disk paint

  datatype Fill = Red | Black | PaletteColour(index: nat)

  datatype Segment = Segment(startAngle: real, endAngle: real, fill: Fill, caption: string)

  /** `updateTexture`'s colour for segment `i` (src/index.js:821-822). */
  function FillStyle(i: nat, isWinner: bool): (f: Fill)
    ensures f == Red <==> isWinner
    ensures !isWinner ==> (f == Black <==> i % 2 == 1)
    ensures f.PaletteColour? ==> f.index == i && i % 2 == 0
  {
    if isWinner then Red else if i % 2 == 0 then PaletteColour(i) else Black
  }

  function SegmentAt(entries: seq<Entry>, winner: Entry?, i: nat): Segment
    requires i < |entries|
  {
    var w := SliceWidth(|entries|);
    Segment(i as real * w, (i + 1) as real * w, FillStyle(i, entries[i] == winner), entries[i].id)
  }

  /** What `updateTexture` paints: one segment per entry, none for a single entry. */
  function Disk(entries: seq<Entry>, winner: Entry?): (d: seq<Segment>)
    ensures |entries| <= 1 ==> d == []
    ensures |entries| > 1 ==> |d| == |entries|
    ensures forall i :: 0 <= i < |d| ==> d[i] == SegmentAt(entries, winner, i)
  {
    if |entries| > 1 then seq(|entries|, i requires 0 <= i < |entries| => SegmentAt(entries, winner, i))
    else []
  }

  /** The segments cover the full turn, from angle zero to a full turn. */
  lemma DiskSpansTurn(entries: seq<Entry>, winner: Entry?)
    requires |entries| > 1
    ensures Disk(entries, winner)[0].startAngle == 0.0
    ensures Disk(entries, winner)[|entries| - 1].endAngle == 2.0 * PI
  {
    var d, n := Disk(entries, winner), |entries|;
    assert d[0] == SegmentAt(entries, winner, 0);
    assert d[n - 1] == SegmentAt(entries, winner, n - 1);
  }

  /** Each segment ends where the next starts: no gap and no overlap. */
  lemma DiskContiguous(entries: seq<Entry>, winner: Entry?, i: nat)
    requires i + 1 < |entries|
    ensures Disk(entries, winner)[i].endAngle == Disk(entries, winner)[i + 1].startAngle
  {
    var d := Disk(entries, winner);
    assert d[i] == SegmentAt(entries, winner, i);
    assert d[i + 1] == SegmentAt(entries, winner, i + 1);
  }

  /** Every segment is a proper arc carrying its own entry's caption. */
  lemma DiskSegment(entries: seq<Entry>, winner: Entry?, i: nat)
    requires 1 < |entries| && i < |entries|
    ensures Disk(entries, winner)[i].startAngle < Disk(entries, winner)[i].endAngle
    ensures Disk(entries, winner)[i].caption == entries[i].id
  {
    var d := Disk(entries, winner);
    assert d[i] == SegmentAt(entries, winner, i);
    ScaleOrder(i as real, (i + 1) as real, SliceWidth(|entries|));
  }

  /** With distinct entries only the winner's segment is red. */
  lemma OnlyWinnerRed(entries: seq<Entry>, k: nat)
    requires |entries| > 1 && k < |entries| && Distinct(entries)
    ensures forall i :: 0 <= i < |entries| ==>
      (Disk(entries, entries[k])[i].fill == Red <==> i == k)
  {
  }

  /** A winner that is not on the disk (a stale pointer, or none) paints nothing red. */
  lemma StaleWinnerPaintsNoRed(entries: seq<Entry>, winner: Entry?)
    requires |entries| > 1 && winner !in entries
    ensures forall i :: 0 <= i < |entries| ==>
      Disk(entries, winner)[i].fill == (if i % 2 == 0 then PaletteColour(i) else Black)
  {
  }

  // ------------------------------------------------------------ bar lights

  /**
   * Lights mode 1 (src/index.js:484-493). As written the third branch
   * repeats the second's condition, so 0.1 is never produced.
   */
  function BarIntensity(index: int, ballIndex: int): (r: real)
    ensures r == 1.0 <==> index == ballIndex || index == ballIndex + 1
    ensures r == 0.2 <==> index == ballIndex - 1 || index == ballIndex + 2
    ensures r == 0.0 <==> index < ballIndex - 1 || index > ballIndex + 2
    ensures r != 0.1
  {
    if ballIndex == index || ballIndex + 1 == index then 1.0
    else if index == ballIndex - 1 || index == ballIndex + 2 then 0.2
    else if index == ballIndex - 1 || index == ballIndex + 2 then 0.1
    else 0.0
  }

  /** There is no wraparound: a ball over bar 29 does not light bar 0 or 1. */
  lemma NoWrapAtLastBar()
    ensures BarIntensity(0, NbBars - 1) == 0.0
    ensures BarIntensity(1, NbBars - 1) == 0.0
    ensures BarIntensity(NbBars - 2, NbBars - 1) == 0.2
  {
  }

  /**
   * The phase of bar `index` in lights mode 2. Operator precedence makes it
   * `offset + index + 1 / nbBars`, not `(offset + index + 1) / nbBars`.
   */
  function GlowPhase(offset: int, index: nat): real
  {
    (offset as real + index as real + 1.0 / NbBars as real) * PI / 4.0
  }

  /**
   * With that precedence each bar is a quarter turn of `sin` ahead of the
   * one before, so the glow pattern repeats every eight bars instead of
   * spreading once over the ring.
   */
  lemma GlowPhaseStep(offset: int, index: nat)
    ensures GlowPhase(offset, index + 1) == GlowPhase(offset, index) + PI / 4.0
    ensures GlowPhase(offset, index + 8) == GlowPhase(offset, index) + 2.0 * PI
  {
  }

  /** A tick of the offset moves the whole pattern along by one bar. */
  lemma GlowPhaseTick(offset: int, index: nat)
    ensures GlowPhase(offset + 1, index) == GlowPhase(offset, index + 1)
  {
  }

  /**
   * Read as `(offset + index + 1) / nbBars`, the phases of the thirty bars
   * would advance by only a 120th of a turn per bar.
   */
  lemma GlowPhaseNotSpread(offset: int)
    ensures GlowPhase(offset, 1) - GlowPhase(offset, 0) != (PI / 4.0) / NbBars as real
  {
  }

  /** One tick of the glow-offset interval (src/index.js:298-304). */
  function NextGlowOffset(offset: int): (r: int)
    requires 0 <= offset < NbBars
    ensures 0 <= r < NbBars
  {
    if offset == NbBars - 1 then 0 else offset + 1
  }

  function GlowAfter(offset: int, ticks: nat): (r: int)
    requires 0 <= offset < NbBars
    ensures 0 <= r < NbBars
  {
    if ticks == 0 then offset else NextGlowOffset(GlowAfter(offset, ticks - 1))
  }

  /** After `t` ticks the offset has advanced by `t` modulo the bar count. */
  lemma {:induction false} GlowCycles(offset: int, ticks: nat)
    requires 0 <= offset < NbBars
    ensures GlowAfter(offset, ticks) == (offset + ticks) % 30
  {
    if ticks == 0 {
      assert offset == 30 * 0 + offset;
    } else {
      GlowCycles(offset, ticks - 1);
      NextGlowResidue(GlowAfter(offset, ticks - 1), offset + (ticks - 1));
    }
  }

  /** One tick advances the offset by one modulo the bar count: from the residue of `x` to that of `x + 1`. */
  lemma NextGlowResidue(g: int, x: int)
    requires x >= 0 && 0 <= g < NbBars && g == x % 30
    ensures NextGlowOffset(g) == (x + 1) % 30
  {
    var q := x / 30;
    assert x == 30 * q + g;
    if g == 29 {
      assert x + 1 == 30 * (q + 1);
    } else {
      assert x + 1 == 30 * q + (g + 1);
    }
  }

  // ----------------------------------------------------------------- poses

  datatype Polar = Polar(radius: real, angle: real)

  /** A bar: its centre, and its rotation about Z. */
  datatype BarPose = BarPose(position: Polar, yaw: real)

  /** A wall plane: its centre, a tilt about X, then a turn about Y. */
  datatype WallPose = WallPose(position: Polar, tilt: real, turn: real)

  datatype BarBodies = BarBodies(bar: BarPose, wall: WallPose)

  /** Odd bars stand out by `markBarHeight`; even bars are flush. */
  function BarRadius(i: nat): (r: real)
    ensures i % 2 == 1 ==> r == Radius * MarkBarHeight
    ensures i % 2 == 0 ==> r == Radius
  {
    if i % 2 == 1 then Radius * MarkBarHeight else Radius
  }

  /** The slot angles of the 30 bars lie within one turn. */
  lemma BarAngleInTurn(i: nat)
    ensures i < NbBars ==> 0.0 <= i as real * SliceWidth(NbBars) < 2.0 * PI
  {
    var w := SliceWidth(NbBars);
    if i < NbBars {
      assert (NbBars - i) as real * w > 0.0;
      assert NbBars as real * w - i as real * w == (NbBars - i) as real * w;
    }
  }

  /** Where `setupPhysicalWorld` first places bar `i` and its wall (src/index.js:611-637). */
  function SetupPlacement(i: nat): (r: BarBodies)
    ensures i < NbBars ==> 0.0 <= r.bar.position.angle < 2.0 * PI
    ensures r.wall.position.angle == r.bar.position.angle == r.bar.yaw
    ensures r.bar.position.radius == BarRadius(i) && r.wall.position.radius == Radius
  {
    BarAngleInTurn(i);
    var angularPos := i as real * SliceWidth(NbBars);
    BarBodies(
      BarPose(Polar(BarRadius(i), angularPos), angularPos),
      WallPose(Polar(Radius, angularPos), -PI / 2.0, 3.0 * PI / 2.0 - angularPos))
  }

  /** Where `tweenWheel` puts bar `i` and its wall for a wheel rotation (src/index.js:749-784). */
  function Placement(i: nat, rotation: real): (r: BarBodies)
    ensures r.bar.position == Polar(SetupPlacement(i).bar.position.radius, SetupPlacement(i).bar.position.angle - rotation)
    ensures r.wall.position == Polar(SetupPlacement(i).wall.position.radius, SetupPlacement(i).wall.position.angle - rotation)
    ensures r.bar.yaw == SetupPlacement(i).bar.yaw - rotation
    ensures r.wall.turn == SetupPlacement(i).wall.turn + rotation
  {
    var angle := i as real * SliceWidth(NbBars) + -rotation;
    BarBodies(
      BarPose(Polar(BarRadius(i), angle), i as real * SliceWidth(NbBars) + -rotation),
      WallPose(Polar(Radius, angle), -PI / 2.0, 3.0 * PI / 2.0 - angle))
  }

  /**
   * The pose rule: bar and wall share the angle slot-angle minus rotation,
   * the bar faces along it, the wall sits on the plain radius, the bar on
   * the alternating one, and the wall's turn completes it to 3*PI/2.
   */
  lemma PlacementRule(i: nat, rotation: real)
    ensures Placement(i, rotation).bar.position.angle == i as real * 2.0 * PI / NbBars as real - rotation
    ensures Placement(i, rotation).wall.position.angle == Placement(i, rotation).bar.position.angle
    ensures Placement(i, rotation).bar.yaw == Placement(i, rotation).bar.position.angle
    ensures Placement(i, rotation).bar.position.radius == BarRadius(i)
    ensures Placement(i, rotation).wall.position.radius == Radius
    ensures Placement(i, rotation).wall.tilt == -PI / 2.0
    ensures Placement(i, rotation).wall.turn + Placement(i, rotation).wall.position.angle == 3.0 * PI / 2.0
  {
  }

  /** At rotation 0 the tween's rule gives back the set-up placement. */
  lemma PlacementAtRest(i: nat)
    ensures Placement(i, 0.0) == SetupPlacement(i)
  {
  }

  /** Turning the wheel by a full turn more moves every angle by a full turn. */
  lemma PlacementFullTurn(i: nat, rotation: real)
    ensures Placement(i, rotation + 2.0 * PI).bar.position.angle ==
            Placement(i, rotation).bar.position.angle - 2.0 * PI
    ensures Placement(i, rotation + 2.0 * PI).bar.position.radius ==
            Placement(i, rotation).bar.position.radius
  {
  }

  /** Bar 0 at rest sits at (R, 0, 0) = (20, 0, 0). */
  lemma FirstBarAtRest()
    ensures Placement(0, 0.0).bar.position == Polar(20.0, 0.0)
  {
  }

  // -------------------------------------------------------------- mapRange

  /** `mapRange(num, inMin, inMax, outMin, outMax)` (src/index.js:62-64). */
  function MapRange(num: real, inMin: real, inMax: real, outMin: real, outMax: real): (r: JsNumber)
    ensures inMax != inMin ==>
      r.Finite? && (r.value - outMin) * (inMax - inMin) == (num - inMin) * (outMax - outMin)
    ensures inMax == inMin ==> !r.Finite?
  {
    Offset(Div((num - inMin) * (outMax - outMin), inMax - inMin), outMin)
  }

  /** The ends of the input range go to the ends of the output range. */
  lemma MapRangeEnds(inMin: real, inMax: real, outMin: real, outMax: real)
    requires inMin != inMax
    ensures MapRange(inMin, inMin, inMax, outMin, outMax) == Finite(outMin)
    ensures MapRange(inMax, inMin, inMax, outMin, outMax) == Finite(outMax)
  {
  }
}
