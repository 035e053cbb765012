/**
 * The prayer-session gesture arithmetic: how a horizontal drag offset becomes rotation,
 * opacity and preview-card scale/opacity while the finger moves, and how the release
 * (offset and velocity) becomes a cancel or a commit to the left or right.
 * Screen coordinates and velocities are exact reals here.
 */
module SwipeGesture {

  /** Release speed, in offset units per second, beyond which any drag commits. */
  const FlickVelocity: real := 1200.0

  function Abs(x: real): real {
    if x < 0.0 then -x else x
  }

  function Min(a: real, b: real): real {
    if a <= b then a else b
  }

  /** The commit distance: 30% of the screen width. */
  function SwipeThreshold(screenWidth: real): real {
    0.3 * screenWidth
  }

  lemma ScaledBetween(t: real, delta: real)
    requires 0.0 <= t <= 1.0
    ensures delta >= 0.0 ==> 0.0 <= t * delta <= delta
    ensures delta <= 0.0 ==> delta <= t * delta <= 0.0
  {
  }

  lemma ScaledMonotone(t1: real, t2: real, delta: real)
    requires t1 <= t2
    ensures delta >= 0.0 ==> t1 * delta <= t2 * delta
    ensures delta <= 0.0 ==> t1 * delta >= t2 * delta
  {
  }

  lemma FractionMonotone(a1: real, a2: real, d: real)
    requires a1 <= a2 && d > 0.0
    ensures a1 / d <= a2 / d
  {
  }

  lemma FractionInUnit(a: real, d: real)
    requires 0.0 <= a <= d && d > 0.0
    ensures 0.0 <= a / d <= 1.0
  {
  }

  lemma DivisionDistributes(a: real, b: real, d: real)
    requires d > 0.0
    ensures (a + b) / d == a / d + b / d
    ensures d / d == 1.0
  {
  }

  lemma DivisionInverse(a: real, d: real)
    requires d > 0.0
    ensures (a / d) * d == a
  {
  }

  lemma FractionAtLeastOne(a: real, d: real)
    requires d > 0.0
    ensures a / d >= 1.0 <==> a >= d
  {
    DivisionDistributes(0.0, d, d);
    DivisionInverse(a, d);
    if a >= d {
      FractionMonotone(d, a, d);
    } else {
      ScaledMonotone(a / d, 1.0, d);
    }
  }

  lemma NegatedFraction(a: real, d: real)
    requires d > 0.0
    ensures (-a) / d == -(a / d)
  {
  }

  /** The point a fraction `t` of the way from `a` to `b`. */
  function Lerp(t: real, a: real, b: real): real {
    a + t * (b - a)
  }

  /**
   * One segment of `interpolate(x, [inLo, inHi], [outLo, outHi], CLAMP)`: linear inside the
   * input range and held at the end values outside it.
   */
  function Interpolate(x: real, inLo: real, inHi: real, outLo: real, outHi: real): (y: real)
    requires inLo < inHi
    ensures outLo <= outHi ==> outLo <= y <= outHi
    ensures outHi <= outLo ==> outHi <= y <= outLo
    ensures x <= inLo ==> y == outLo
    ensures x >= inHi ==> y == outHi
  {
    if x <= inLo then outLo
    else if x >= inHi then outHi
    else
      FractionInUnit(x - inLo, inHi - inLo);
      ScaledBetween((x - inLo) / (inHi - inLo), outHi - outLo);
      Lerp((x - inLo) / (inHi - inLo), outLo, outHi)
  }

  /** Inside the input range the interpolation is the straight line between the outputs. */
  lemma InterpolateInterior(x: real, inLo: real, inHi: real, outLo: real, outHi: real)
    requires inLo < x < inHi
    ensures Interpolate(x, inLo, inHi, outLo, outHi) == Lerp((x - inLo) / (inHi - inLo), outLo, outHi)
  {
  }

  lemma LerpMonotone(t1: real, t2: real, a: real, b: real)
    requires t1 <= t2
    ensures a <= b ==> Lerp(t1, a, b) <= Lerp(t2, a, b)
    ensures a >= b ==> Lerp(t1, a, b) >= Lerp(t2, a, b)
  {
    ScaledMonotone(t1, t2, b - a);
  }

  /** A clamped interpolation follows the direction of its output range. */
  lemma InterpolateMonotone(x1: real, x2: real, inLo: real, inHi: real, outLo: real, outHi: real)
    requires inLo < inHi && x1 <= x2
    ensures outLo <= outHi ==> Interpolate(x1, inLo, inHi, outLo, outHi) <= Interpolate(x2, inLo, inHi, outLo, outHi)
    ensures outLo >= outHi ==> Interpolate(x1, inLo, inHi, outLo, outHi) >= Interpolate(x2, inLo, inHi, outLo, outHi)
  {
    if x1 <= inLo {
      assert Interpolate(x1, inLo, inHi, outLo, outHi) == outLo;
    } else if x2 >= inHi {
      assert Interpolate(x2, inLo, inHi, outLo, outHi) == outHi;
    } else {
      InterpolateInterior(x1, inLo, inHi, outLo, outHi);
      InterpolateInterior(x2, inLo, inHi, outLo, outHi);
      FractionMonotone(x1 - inLo, x2 - inLo, inHi - inLo);
      LerpMonotone((x1 - inLo) / (inHi - inLo), (x2 - inLo) / (inHi - inLo), outLo, outHi);
    }
  }

  /**
   * Card rotation in degrees while dragging: the offset mapped over [-W, 0, W] onto
   * [-30, 0, 30], clamped beyond a full screen width either way.
   */
  function Rotation(dx: real, screenWidth: real): (deg: real)
    requires screenWidth > 0.0
    ensures -30.0 <= deg <= 30.0
    ensures dx <= -screenWidth ==> deg == -30.0
    ensures dx >= screenWidth ==> deg == 30.0
    ensures dx == 0.0 ==> deg == 0.0
    ensures (deg < 0.0 <==> dx < 0.0) && (deg > 0.0 <==> dx > 0.0)
  {
    if dx <= 0.0 then
      var r := Interpolate(dx, -screenWidth, 0.0, -30.0, 0.0);
      assert dx < 0.0 ==> r < 0.0 by {
        if -screenWidth < dx < 0.0 {
          assert (dx + screenWidth) / screenWidth < 1.0;
        }
      }
      r
    else
      var r := Interpolate(dx, 0.0, screenWidth, 0.0, 30.0);
      assert r > 0.0 by {
        if dx < screenWidth {
          assert dx / screenWidth > 0.0;
        }
      }
      r
  }

  /** Dragging further right never rotates the card less. */
  lemma RotationMonotone(dx1: real, dx2: real, screenWidth: real)
    requires screenWidth > 0.0 && dx1 <= dx2
    ensures Rotation(dx1, screenWidth) <= Rotation(dx2, screenWidth)
  {
    if dx2 <= 0.0 {
      InterpolateMonotone(dx1, dx2, -screenWidth, 0.0, -30.0, 0.0);
    } else if dx1 > 0.0 {
      InterpolateMonotone(dx1, dx2, 0.0, screenWidth, 0.0, 30.0);
    }
  }

  /** Inside one screen width either way, rotation is proportional to the offset. */
  lemma RotationIsProportional(dx: real, screenWidth: real)
    requires screenWidth > 0.0 && -screenWidth < dx < screenWidth
    ensures Rotation(dx, screenWidth) == 30.0 * (dx / screenWidth)
  {
    if dx < 0.0 {
      InterpolateInterior(dx, -screenWidth, 0.0, -30.0, 0.0);
      DivisionDistributes(dx, screenWidth, screenWidth);
      assert (dx - -screenWidth) / (0.0 - -screenWidth) == dx / screenWidth + 1.0;
    } else if dx > 0.0 {
      InterpolateInterior(dx, 0.0, screenWidth, 0.0, 30.0);
      assert (dx - 0.0) / (screenWidth - 0.0) == dx / screenWidth;
    }
  }

  /** Mirror symmetry: a drag to the left tilts exactly as far as the same drag to the right. */
  lemma RotationIsOdd(dx: real, screenWidth: real)
    requires screenWidth > 0.0
    ensures Rotation(-dx, screenWidth) == -Rotation(dx, screenWidth)
  {
    if -screenWidth < dx < screenWidth {
      RotationIsProportional(dx, screenWidth);
      RotationIsProportional(-dx, screenWidth);
      NegatedFraction(dx, screenWidth);
    } else {
      RotationBeyondWidth(dx, screenWidth);
      RotationBeyondWidth(-dx, screenWidth);
    }
  }

  /** At a full screen width or more the tilt is held at 30 degrees in the drag's direction. */
  lemma RotationBeyondWidth(dx: real, screenWidth: real)
    requires screenWidth > 0.0 && (dx <= -screenWidth || dx >= screenWidth)
    ensures Rotation(dx, screenWidth) == if dx < 0.0 then -30.0 else 30.0
  {
  }

  /** Swipe progress: the offset as a fraction of the threshold, capped at 1. */
  function SwipeProgress(dx: real, screenWidth: real): (p: real)
    requires screenWidth > 0.0
    ensures 0.0 <= p <= 1.0
    ensures p == 1.0 <==> Abs(dx) >= SwipeThreshold(screenWidth)
    ensures p == 0.0 <==> dx == 0.0
  {
    var raw := Abs(dx) / SwipeThreshold(screenWidth);
    FractionAtLeastOne(Abs(dx), SwipeThreshold(screenWidth));
    Min(raw, 1.0)
  }

  /** Top-card opacity while dragging: fades from 1 to 0.6 over the threshold distance. */
  function TopOpacity(dx: real, screenWidth: real): (o: real)
    requires screenWidth > 0.0
    ensures 0.6 <= o <= 1.0
    ensures dx == 0.0 ==> o == 1.0
    ensures Abs(dx) >= SwipeThreshold(screenWidth) ==> o == 0.6
  {
    Interpolate(Abs(dx) / SwipeThreshold(screenWidth), 0.0, 1.0, 1.0, 0.6)
  }

  /** The further the drag, the fainter the top card. */
  lemma TopOpacityFadesWithDistance(dx1: real, dx2: real, screenWidth: real)
    requires screenWidth > 0.0 && Abs(dx1) <= Abs(dx2)
    ensures TopOpacity(dx1, screenWidth) >= TopOpacity(dx2, screenWidth)
  {
    FractionMonotone(Abs(dx1), Abs(dx2), SwipeThreshold(screenWidth));
    InterpolateMonotone(Abs(dx1) / SwipeThreshold(screenWidth), Abs(dx2) / SwipeThreshold(screenWidth),
                        0.0, 1.0, 1.0, 0.6);
  }

  /** The further the drag, in either direction, the further the swipe progress. */
  lemma SwipeProgressGrowsWithDistance(dx1: real, dx2: real, screenWidth: real)
    requires screenWidth > 0.0 && Abs(dx1) <= Abs(dx2)
    ensures SwipeProgress(dx1, screenWidth) <= SwipeProgress(dx2, screenWidth)
  {
    FractionMonotone(Abs(dx1), Abs(dx2), SwipeThreshold(screenWidth));
  }

  /** The nine animated values of the card stack: top card, next card, third card. */
  datatype CardVisuals = CardVisuals(
    translateX: real, translateY: real, rotate: real, scale: real, opacity: real,
    nextScale: real, nextOpacity: real,
    thirdScale: real, thirdOpacity: real)

  /** The resting stack: top card in place, next card at 0.94/0.7, third card at 0.88/0.5. */
  const RestVisuals: CardVisuals := CardVisuals(0.0, 0.0, 0.0, 1.0, 1.0, 0.94, 0.7, 0.88, 0.5)

  /** Drag start: the top card pops to scale 1.05 (the target value of the spring). */
  function StartDrag(v: CardVisuals): (w: CardVisuals)
    ensures w.scale == 1.05
    ensures w.(scale := v.scale) == v
  {
    v.(scale := 1.05)
  }

  /**
   * A drag update: the top card follows the finger (vertical motion damped to a tenth),
   * tilts and fades; both preview cards grow toward the rank above them. Scale is untouched.
   */
  function ActiveDrag(v: CardVisuals, dx: real, dy: real, screenWidth: real): (w: CardVisuals)
    requires screenWidth > 0.0
    ensures w.translateX == dx && w.translateY == dy * 0.1 && w.scale == v.scale
    ensures w.rotate == Rotation(dx, screenWidth) && w.opacity == TopOpacity(dx, screenWidth)
    ensures -30.0 <= w.rotate <= 30.0 && 0.6 <= w.opacity <= 1.0
    ensures 0.94 <= w.nextScale <= 1.0 && 0.7 <= w.nextOpacity <= 1.0
    ensures 0.88 <= w.thirdScale <= 0.94 && 0.5 <= w.thirdOpacity <= 0.7
  {
    var p := SwipeProgress(dx, screenWidth);
    CardVisuals(
      dx, dy * 0.1, Rotation(dx, screenWidth), v.scale, TopOpacity(dx, screenWidth),
      Interpolate(p, 0.0, 1.0, 0.94, 1.0), Interpolate(p, 0.0, 1.0, 0.7, 1.0),
      Interpolate(p, 0.0, 1.0, 0.88, 0.94), Interpolate(p, 0.0, 1.0, 0.5, 0.7))
  }

  /**
   * The further the drag, in either direction, the larger and more opaque both preview
   * cards become; the vertical offset plays no part.
   */
  lemma PreviewsGrowWithDistance(v: CardVisuals, dx1: real, dy1: real, dx2: real, dy2: real, screenWidth: real)
    requires screenWidth > 0.0 && Abs(dx1) <= Abs(dx2)
    ensures var w1 := ActiveDrag(v, dx1, dy1, screenWidth);
      var w2 := ActiveDrag(v, dx2, dy2, screenWidth);
      w1.nextScale <= w2.nextScale && w1.nextOpacity <= w2.nextOpacity &&
      w1.thirdScale <= w2.thirdScale && w1.thirdOpacity <= w2.thirdOpacity
  {
    var p1 := SwipeProgress(dx1, screenWidth);
    var p2 := SwipeProgress(dx2, screenWidth);
    SwipeProgressGrowsWithDistance(dx1, dx2, screenWidth);
    InterpolateMonotone(p1, p2, 0.0, 1.0, 0.94, 1.0);
    InterpolateMonotone(p1, p2, 0.0, 1.0, 0.7, 1.0);
    InterpolateMonotone(p1, p2, 0.0, 1.0, 0.88, 0.94);
    InterpolateMonotone(p1, p2, 0.0, 1.0, 0.5, 0.7);
  }

  /** A release that commits sends the card off in this direction. */
  datatype Direction = Left | Right

  /** The outcome of releasing a drag. */
  datatype Release = Cancel | Commit(direction: Direction)

  /**
   * The release rule: commit when the offset or the speed is strictly past its bound; the
   * direction follows the sign of the offset alone (zero offset goes left).
   */
  function Decide(dx: real, velocityX: real, screenWidth: real): (r: Release)
    ensures r.Commit? <==> Abs(dx) > SwipeThreshold(screenWidth) || Abs(velocityX) > FlickVelocity
    ensures r.Commit? ==> (r.direction == Right <==> dx > 0.0)
  {
    if Abs(dx) > SwipeThreshold(screenWidth) || Abs(velocityX) > FlickVelocity then
      Commit(if dx > 0.0 then Right else Left)
    else Cancel
  }

  /** Cancel: every value springs back to the resting stack. */
  function CancelledVisuals(v: CardVisuals): (w: CardVisuals)
    ensures w == RestVisuals
  {
    v.(translateX := 0.0, translateY := 0.0, rotate := 0.0, scale := 1.0, opacity := 1.0,
       nextScale := 0.94, nextOpacity := 0.7, thirdScale := 0.88, thirdOpacity := 0.5)
  }

  /**
   * Commit: the top card flies 1.5 screen widths out in its direction, turning to 60 degrees,
   * shrinking to 0.7 and vanishing; the previews move up one rank. Vertical offset is kept.
   */
  function ExitVisuals(v: CardVisuals, direction: Direction, screenWidth: real): (w: CardVisuals)
    ensures w.translateY == v.translateY
    ensures w.opacity == 0.0 && w.scale == 0.7
    ensures direction == Left ==> w.translateX == -1.5 * screenWidth && w.rotate == -60.0
    ensures direction == Right ==> w.translateX == 1.5 * screenWidth && w.rotate == 60.0
    ensures w.nextScale == RestVisuals.scale && w.nextOpacity == RestVisuals.opacity
    ensures w.thirdScale == RestVisuals.nextScale && w.thirdOpacity == RestVisuals.nextOpacity
  {
    v.(translateX := if direction == Left then -screenWidth * 1.5 else screenWidth * 1.5,
       rotate := if direction == Left then -60.0 else 60.0,
       opacity := 0.0, scale := 0.7,
       nextScale := 1.0, nextOpacity := 1.0, thirdScale := 0.94, thirdOpacity := 0.7)
  }

  /** An untouched card (offset 0, no pop) shows exactly the resting stack. */
  lemma DragAtOriginIsRest(v: CardVisuals, screenWidth: real)
    requires screenWidth > 0.0 && v.scale == 1.0
    ensures ActiveDrag(v, 0.0, 0.0, screenWidth) == RestVisuals
  {
  }

  /**
   * Once the offset alone is past the threshold, the previews already stand where a commit
   * sends them: the drag and the exit animation meet without a jump.
   */
  lemma PreviewsReachExitTargets(v: CardVisuals, dx: real, dy: real, screenWidth: real)
    requires screenWidth > 0.0 && Abs(dx) >= SwipeThreshold(screenWidth)
    ensures var w := ActiveDrag(v, dx, dy, screenWidth);
      var e := ExitVisuals(v, if dx > 0.0 then Right else Left, screenWidth);
      w.nextScale == e.nextScale && w.nextOpacity == e.nextOpacity &&
      w.thirdScale == e.thirdScale && w.thirdOpacity == e.thirdOpacity
  {
  }

  /** The sign of the velocity never matters: only its magnitude, and only for commit-or-cancel. */
  lemma DecisionIgnoresVelocitySign(dx: real, velocityX: real, screenWidth: real)
    ensures Decide(dx, velocityX, screenWidth) == Decide(dx, -velocityX, screenWidth)
  {
  }

  /** A fast flick with no offset commits, and goes left. */
  lemma FlickWithoutOffsetGoesLeft(velocityX: real, screenWidth: real)
    requires Abs(velocityX) > FlickVelocity && screenWidth >= 0.0
    ensures Decide(0.0, velocityX, screenWidth) == Commit(Left)
  {
  }

  /** Worked releases on a 400-wide screen (threshold 120). */
  lemma DecisionExamples()
    ensures Decide(50.0, 800.0, 400.0) == Cancel
    ensures Decide(-130.0, 0.0, 400.0) == Commit(Left)
    ensures Decide(120.0, 0.0, 400.0) == Cancel
    ensures Decide(0.0, -1201.0, 400.0) == Commit(Left)
  {
  }
}
