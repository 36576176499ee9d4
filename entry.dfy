/**
 * The planning half of `create_hsw`: the pattern pitches and repeat counts derived from the
 * wall's width and height, the half-pitch shift of the top border, where each border body
 * goes and how often it is repeated, and which bodies are finally combined.
 */
module Entry {
  import opened Wrappers
  import opened Geometry
  import opened Constants
  import opened Utils

  // ---------------------------------------------------------------------------------------
  // Floor division and Python's remainder

  /** `q` is the floor of x / p, stated without division: q * p <= x < (q + 1) * p. */
  predicate IsFloorQuotient(q: int, x: real, p: real)
  {
    (q as real) * p <= x < (q as real + 1.0) * p
  }

  /** `math.floor(x / p)` for a positive p is the floor quotient of x by p. */
  lemma FloorQuotient(x: real, p: real)
    requires p > 0.0
    ensures IsFloorQuotient((x / p).Floor, x, p)
  {
    var y := x / p;
    var q := y.Floor as real;
    assert y * p == x;
    assert (y - q) * p >= 0.0;
    assert (q + 1.0 - y) * p > 0.0;
  }

  /** A floor quotient is unique. */
  lemma FloorQuotientUnique(q: int, q': int, x: real, p: real)
    requires p > 0.0 && IsFloorQuotient(q, x, p) && IsFloorQuotient(q', x, p)
    ensures q == q'
  {
    if q < q' {
      NoFloorQuotientAbove(q, q', x, p);
    } else if q' < q {
      NoFloorQuotientAbove(q', q, x, p);
    }
  }

  lemma NoFloorQuotientAbove(q: int, q': int, x: real, p: real)
    requires p > 0.0 && q < q' && IsFloorQuotient(q, x, p)
    ensures !IsFloorQuotient(q', x, p)
  {
    var gap := q' as real - (q as real + 1.0);
    assert gap >= 0.0;
    assert gap * p >= 0.0;
    assert (q' as real) * p == gap * p + (q as real + 1.0) * p;
  }

  /**
   * Python's `a % 2`, which is `a - 2 * floor(a / 2)` and so takes the sign of the divisor:
   * it is always 0 or 1, and agrees with Dafny's Euclidean remainder.
   */
  function PyMod2(a: int): (r: int)
    ensures r == 0 || r == 1
    ensures r == a % 2
  {
    var f := ((a as real) / 2.0).Floor;
    assert 2 * f <= a < 2 * f + 2 by {
      assert (f as real) <= (a as real) / 2.0 < (f as real) + 1.0;
    }
    a - 2 * f
  }

  /** A count of -1 (a very low wall) counts as odd. */
  lemma MinusOneIsOdd()
    ensures PyMod2(-1) == 1
  {
  }

  // ---------------------------------------------------------------------------------------
  // Pitches and repeat counts

  /** The two pitches and the four repeat counts of the two offset cell patterns. */
  datatype Tiling = Tiling(
    firstPatternDistance: real,
    secondPatternDistance: real,
    firstPatternQuantity1: int,
    firstPatternQuantity2: int,
    secondPatternQuantity1: int,
    secondPatternQuantity2: int)

  /**
   * The vertical pitch is the outer hexagon's width across flats, the horizontal pitch
   * three side lengths; each count is a floor quotient, the second pattern's rows starting
   * half a pitch higher and the first pattern's columns reaching half a pitch further.
   */
  function ComputeTiling(width: real, height: real, t: Trig): (r: Tiling)
    requires ValidTrig(t)
    ensures r.firstPatternDistance == 2.0 * OUTER_RADIUS
    ensures r.secondPatternDistance == 3.0 * SideLength(t) && r.secondPatternDistance > 0.0
    ensures IsFloorQuotient(r.firstPatternQuantity1, height, r.firstPatternDistance)
    ensures IsFloorQuotient(r.firstPatternQuantity2, width + r.secondPatternDistance / 2.0, r.secondPatternDistance)
    ensures IsFloorQuotient(r.secondPatternQuantity1, height - r.firstPatternDistance / 2.0, r.firstPatternDistance)
    ensures IsFloorQuotient(r.secondPatternQuantity2, width, r.secondPatternDistance)
  {
    var firstPatternDistance := INNER_RADIUS * 2.0 + RADIUS_OFFSET * 2.0;
    var secondPatternDistance := SideLength(t) * 3.0;
    FloorQuotient(height, firstPatternDistance);
    FloorQuotient(width + secondPatternDistance / 2.0, secondPatternDistance);
    FloorQuotient(height - firstPatternDistance / 2.0, firstPatternDistance);
    FloorQuotient(width, secondPatternDistance);
    Tiling(
      firstPatternDistance,
      secondPatternDistance,
      (height / firstPatternDistance).Floor,
      ((width + secondPatternDistance / 2.0) / secondPatternDistance).Floor,
      ((height - firstPatternDistance / 2.0) / firstPatternDistance).Floor,
      (width / secondPatternDistance).Floor)
  }

  /** Shifting the dividend by half the divisor changes the floor quotient by 0 or 1. */
  lemma HalfPitchApart(q: int, q': int, x: real, p: real)
    requires p > 0.0 && IsFloorQuotient(q, x, p) && IsFloorQuotient(q', x - p / 2.0, p)
    ensures q - q' == 0 || q - q' == 1
  {
    var y := x / p;
    ShiftedQuotient(x, p);
    FloorQuotient(x, p);
    FloorQuotientUnique(q, y.Floor, x, p);
    FloorQuotient(x - p / 2.0, p);
    FloorQuotientUnique(q', (y - 0.5).Floor, x - p / 2.0, p);
  }

  lemma ShiftedQuotient(x: real, p: real)
    requires p > 0.0
    ensures (x - p / 2.0) / p == x / p - 0.5
  {
    assert (x - p / 2.0) / p == x / p - (p / 2.0) / p;
  }

  /** Within each direction the two patterns' counts differ by at most one. */
  lemma CountsDifferByAtMostOne(width: real, height: real, t: Trig)
    requires ValidTrig(t)
    ensures var r := ComputeTiling(width, height, t);
      && r.firstPatternQuantity1 - r.secondPatternQuantity1 in {0, 1}
      && r.firstPatternQuantity2 - r.secondPatternQuantity2 in {0, 1}
  {
    var r := ComputeTiling(width, height, t);
    HalfPitchApart(r.firstPatternQuantity1, r.secondPatternQuantity1, height, r.firstPatternDistance);
    var p := r.secondPatternDistance;
    assert width + p / 2.0 - p / 2.0 == width;
    HalfPitchApart(r.firstPatternQuantity2, r.secondPatternQuantity2, width + p / 2.0, p);
  }

  /**
   * A wall lower than half a row pitch has no first-pattern row and a second-pattern row
   * count of -1; the top border is then not shifted, since -1 is odd and 0 is even.
   */
  lemma LowWallHasNegativeRowCount(width: real, height: real, t: Trig)
    requires ValidTrig(t) && 0.0 <= height < OUTER_RADIUS
    ensures var r := ComputeTiling(width, height, t);
      && r.firstPatternQuantity1 == 0 && r.secondPatternQuantity1 == -1
      && !DoHorizontalShift(true, r.firstPatternQuantity1, r.secondPatternQuantity1)
  {
    var r := ComputeTiling(width, height, t);
    var p := r.firstPatternDistance;
    FloorQuotientUnique(r.firstPatternQuantity1, 0, height, p);
    FloorQuotientUnique(r.secondPatternQuantity1, -1, height - p / 2.0, p);
    MinusOneIsOdd();
  }

  /** All four counts are non-negative exactly when the wall is at least half a row pitch high and has a non-negative width. */
  lemma CountsNonNegative(width: real, height: real, t: Trig)
    requires ValidTrig(t)
    ensures var r := ComputeTiling(width, height, t);
      (&& r.firstPatternQuantity1 >= 0 && r.firstPatternQuantity2 >= 0
       && r.secondPatternQuantity1 >= 0 && r.secondPatternQuantity2 >= 0)
      <==> (height >= OUTER_RADIUS && width >= 0.0)
  {
    var r := ComputeTiling(width, height, t);
    CountsDifferByAtMostOne(width, height, t);
    var p1, p2 := r.firstPatternDistance, r.secondPatternDistance;
    if r.secondPatternQuantity1 >= 0 {
      assert 0.0 <= (r.secondPatternQuantity1 as real) * p1;
    }
    if r.secondPatternQuantity2 >= 0 {
      assert 0.0 <= (r.secondPatternQuantity2 as real) * p2;
    }
    if height >= OUTER_RADIUS {
      assert height - p1 / 2.0 >= 0.0;
      NonNegativeFloorQuotient(r.secondPatternQuantity1, height - p1 / 2.0, p1);
    }
    if width >= 0.0 {
      NonNegativeFloorQuotient(r.secondPatternQuantity2, width, p2);
    }
  }

  /** The floor quotient of a non-negative dividend is non-negative. */
  lemma NonNegativeFloorQuotient(q: int, x: real, p: real)
    requires p > 0.0 && x >= 0.0 && IsFloorQuotient(q, x, p)
    ensures q >= 0
  {
  }

  // ---------------------------------------------------------------------------------------
  // Horizontal shift of the top border

  /**
   * `doHorizontalShift`: true unless a top border is requested; with a top border, true
   * exactly when the two row counts have the same parity (their difference is even).
   */
  function DoHorizontalShift(createTopBorder: bool, firstPatternQuantity1: int, secondPatternQuantity1: int): (shift: bool)
    ensures !createTopBorder ==> shift
    ensures createTopBorder ==> (shift <==> (firstPatternQuantity1 - secondPatternQuantity1) % 2 == 0)
  {
    if !createTopBorder then true
    else
      var firstEven := PyMod2(firstPatternQuantity1) == 0;
      var secondEven := PyMod2(secondPatternQuantity1) == 0;
      !((!firstEven) != (!secondEven))
  }

  /**
   * Because the row counts differ by at most one, the parity test means: the top border is
   * shifted exactly when both patterns have the same number of rows.
   */
  lemma ShiftExactlyWhenRowCountsEqual(width: real, height: real, t: Trig)
    requires ValidTrig(t)
    ensures var r := ComputeTiling(width, height, t);
      (DoHorizontalShift(true, r.firstPatternQuantity1, r.secondPatternQuantity1)
       <==> r.firstPatternQuantity1 == r.secondPatternQuantity1)
  {
    CountsDifferByAtMostOne(width, height, t);
  }

  // ---------------------------------------------------------------------------------------
  // Border centres

  /** The top border's offset: half a pitch left and down when shifting, none otherwise. */
  function TopBorderOffset(shift: bool, r: Tiling): (o: Point)
    ensures shift ==> 2.0 * o.x == -r.secondPatternDistance && 2.0 * o.y == -r.firstPatternDistance
    ensures !shift ==> o == Point(0.0, 0.0)
  {
    if shift then Point(-1.0 * r.secondPatternDistance / 2.0, -1.0 * r.firstPatternDistance / 2.0)
    else Point(0.0, 0.0)
  }

  /** Centre of the bottom border body. */
  function BottomBorderCenter(t: Trig): (c: Point)
    requires ValidTrig(t)
    ensures c.y == 0.0 && c.x > 0.0
  {
    Point(SideLength(t) * 2.5, 0.0)
  }

  /**
   * Centre of the top border body: one row above the second pattern's top row, then offset.
   * Shifted, it moves half a row down into the base cell's column (x = side length);
   * unshifted, it stays in the bottom border's column.
   */
  function TopBorderCenter(shift: bool, r: Tiling, t: Trig): (c: Point)
    requires ValidTrig(t) && r.secondPatternDistance == 3.0 * SideLength(t)
    ensures shift ==> c.x == SideLength(t)
    ensures shift ==> 2.0 * c.y == r.firstPatternDistance * (2.0 * (r.secondPatternQuantity1 as real) + 1.0)
    ensures !shift ==> c.x == BottomBorderCenter(t).x
    ensures !shift ==> c.y == r.firstPatternDistance * (r.secondPatternQuantity1 as real + 1.0)
  {
    var o := TopBorderOffset(shift, r);
    Point(SideLength(t) * 2.5 + o.x, r.firstPatternDistance * (r.secondPatternQuantity1 as real + 1.0) + o.y)
  }

  /** Centre of the left border body: one horizontal pitch left of the bottom border, one row up. */
  function LeftBorderCenter(r: Tiling, t: Trig): (c: Point)
    requires ValidTrig(t) && r.secondPatternDistance == 3.0 * SideLength(t)
    ensures c.x == BottomBorderCenter(t).x - r.secondPatternDistance
    ensures 2.0 * c.x == -SideLength(t)
    ensures c.y == r.firstPatternDistance
  {
    Point(SideLength(t) * 2.5 - r.secondPatternDistance, r.firstPatternDistance)
  }

  /**
   * The top border sits within one row pitch below the wall's top edge, and it lines up
   * with the base cell's column (x = side length) when shifted and with the bottom border's
   * column otherwise.
   */
  lemma TopBorderPlacement(width: real, height: real, t: Trig)
    requires ValidTrig(t)
    ensures var r := ComputeTiling(width, height, t);
      var shift := DoHorizontalShift(true, r.firstPatternQuantity1, r.secondPatternQuantity1);
      var c := TopBorderCenter(shift, r, t);
      && height - r.firstPatternDistance < c.y <= height
      && (shift ==> c.x == SideLength(t))
      && (!shift ==> c.x == BottomBorderCenter(t).x)
  {
    var r := ComputeTiling(width, height, t);
    ShiftExactlyWhenRowCountsEqual(width, height, t);
    CountsDifferByAtMostOne(width, height, t);
  }

  // ---------------------------------------------------------------------------------------
  // Border repeat patterns

  /** The bottom border is repeated along x once per second-pattern column. */
  function BottomBorderPattern(r: Tiling): (p: PatternInput)
    ensures p.first == Direction(XAxis, r.secondPatternQuantity2, r.secondPatternDistance)
  {
    DuplicateBorderBody(XAxis, r.secondPatternQuantity2, r.secondPatternDistance)
  }

  /** The top border follows the first pattern's columns when shifted, the second's otherwise. */
  function TopBorderPattern(shift: bool, r: Tiling): (p: PatternInput)
    ensures p.first.axis == XAxis && p.first.distance == r.secondPatternDistance
    ensures p.first.quantity == if shift then r.firstPatternQuantity2 else r.secondPatternQuantity2
  {
    var numDuplicates := if shift then r.firstPatternQuantity2 else r.secondPatternQuantity2;
    DuplicateBorderBody(XAxis, numDuplicates, r.secondPatternDistance)
  }

  /** The left border is repeated along y once per second-pattern row. */
  function LeftBorderPattern(r: Tiling): (p: PatternInput)
    ensures p.first == Direction(YAxis, r.secondPatternQuantity1, r.firstPatternDistance)
  {
    DuplicateBorderBody(YAxis, r.secondPatternQuantity1, r.firstPatternDistance)
  }

  /** The top border never has fewer copies than the bottom one, and at most one more. */
  lemma TopBorderCopies(width: real, height: real, t: Trig)
    requires ValidTrig(t)
    ensures var r := ComputeTiling(width, height, t);
      var shift := DoHorizontalShift(true, r.firstPatternQuantity1, r.secondPatternQuantity1);
      TopBorderPattern(shift, r).first.quantity - BottomBorderPattern(r).first.quantity in {0, 1}
  {
    CountsDifferByAtMostOne(width, height, t);
  }

  // ---------------------------------------------------------------------------------------
  // The whole wall

  /** A call of `create_half_comb` and the pattern that then repeats its body. */
  datatype BorderStep = BorderStep(kind: BorderType, center: Point, pattern: PatternInput)

  /** Every parameter `create_hsw` derives before and between its host calls. */
  datatype WallPlan = WallPlan(
    tiling: Tiling,
    shift: bool,
    firstPattern: PatternInput,
    secondPattern: PatternInput,
    bottom: Option<BorderStep>,
    top: Option<BorderStep>,
    left: Option<BorderStep>)

  /** The plan of `create_hsw` for the dialog's width, height and three border toggles. */
  function PlanWall(width: real, height: real, createBottomBorder: bool, createTopBorder: bool,
                    createLeftBorder: bool, t: Trig): (p: WallPlan)
    requires ValidTrig(t)
    ensures p.tiling == ComputeTiling(width, height, t)
    ensures p.shift <==> (!createTopBorder || p.tiling.firstPatternQuantity1 == p.tiling.secondPatternQuantity1)
    ensures p.firstPattern == PatternInput(
      Direction(YAxis, p.tiling.firstPatternQuantity1, p.tiling.firstPatternDistance),
      Direction(XAxis, p.tiling.firstPatternQuantity2, p.tiling.secondPatternDistance))
    ensures p.secondPattern == PatternInput(
      Direction(YAxis, p.tiling.secondPatternQuantity1, p.tiling.firstPatternDistance),
      Direction(XAxis, p.tiling.secondPatternQuantity2, p.tiling.secondPatternDistance))
    ensures p.bottom.Some? <==> createBottomBorder
    ensures p.top.Some? <==> createTopBorder
    ensures p.left.Some? <==> createLeftBorder
    ensures p.bottom.Some? ==>
      && p.bottom.value.kind == BOTTOM && p.bottom.value.center == BottomBorderCenter(t)
      && p.bottom.value.pattern.first.quantity == p.tiling.secondPatternQuantity2
    ensures p.top.Some? ==>
      && p.top.value.kind == TOP
      && height - p.tiling.firstPatternDistance < p.top.value.center.y <= height
      && p.top.value.pattern.first.quantity - p.tiling.secondPatternQuantity2 in {0, 1}
    ensures p.left.Some? ==>
      && p.left.value.kind == LEFT && p.left.value.center.y == p.tiling.firstPatternDistance
      && p.left.value.pattern.first.quantity == p.tiling.secondPatternQuantity1
  {
    var r := ComputeTiling(width, height, t);
    var shift := DoHorizontalShift(createTopBorder, r.firstPatternQuantity1, r.secondPatternQuantity1);
    ShiftExactlyWhenRowCountsEqual(width, height, t);
    TopBorderPlacement(width, height, t);
    TopBorderCopies(width, height, t);
    WallPlan(
      r,
      shift,
      PatternInput(Direction(YAxis, r.firstPatternQuantity1, r.firstPatternDistance),
                   Direction(XAxis, r.firstPatternQuantity2, r.secondPatternDistance)),
      PatternInput(Direction(YAxis, r.secondPatternQuantity1, r.firstPatternDistance),
                   Direction(XAxis, r.secondPatternQuantity2, r.secondPatternDistance)),
      if createBottomBorder then Some(BorderStep(BOTTOM, BottomBorderCenter(t), BottomBorderPattern(r))) else None,
      if createTopBorder then Some(BorderStep(TOP, TopBorderCenter(shift, r, t), TopBorderPattern(shift, r))) else None,
      if createLeftBorder then Some(BorderStep(LEFT, LeftBorderCenter(r, t), LeftBorderPattern(r))) else None)
  }

  /**
   * The dialog's default 10 x 10 wall: four and three rows, two columns each, so the row
   * parities differ, the top border is not shifted and is repeated twice.
   */
  lemma DefaultWall(t: Trig)
    requires ValidTrig(t)
    ensures var r := ComputeTiling(10.0, 10.0, t);
      && r.firstPatternQuantity1 == 4 && r.secondPatternQuantity1 == 3
      && r.firstPatternQuantity2 == 2 && r.secondPatternQuantity2 == 2
      && !DoHorizontalShift(true, r.firstPatternQuantity1, r.secondPatternQuantity1)
      && TopBorderPattern(false, r).first.quantity == 2
  {
    var r := ComputeTiling(10.0, 10.0, t);
    TanPi6Bounds(t);
    var p := r.secondPatternDistance;
    assert 4.0 < p < 4.2;
    FloorQuotientUnique(r.firstPatternQuantity1, 4, 10.0, r.firstPatternDistance);
    FloorQuotientUnique(r.secondPatternQuantity1, 3, 10.0 - r.firstPatternDistance / 2.0, r.firstPatternDistance);
    FloorQuotientUnique(r.firstPatternQuantity2, 2, 10.0 + p / 2.0, p);
    FloorQuotientUnique(r.secondPatternQuantity2, 2, 10.0, p);
  }

  // ---------------------------------------------------------------------------------------
  // Combining the bodies

  /** No body occurs twice. */
  predicate Distinct<T(==)>(s: seq<T>)
  {
    forall i, j :: 0 <= i < j < |s| ==> s[i] != s[j]
  }

  /** The combine feature's input: target body, tool bodies, and whether the tools are kept. */
  datatype CombineInput<T> = CombineInput(target: T, tools: seq<T>, isKeepToolBodies: bool)

  /**
   * The final combine: the loop over the component's bodies collects every body but the
   * first as tools, in order, and the first body is the target. With no body at all there
   * is no target and the host call fails.
   */
  method CombineAllBodies<T(==)>(bodies: seq<T>) returns (input: Option<CombineInput<T>>)
    ensures input.Some? <==> |bodies| > 0
    ensures input.Some? ==>
      && input.value.target == bodies[0]
      && [input.value.target] + input.value.tools == bodies
      && |input.value.tools| == |bodies| - 1
      && !input.value.isKeepToolBodies
      && (Distinct(bodies) ==> input.value.target !in input.value.tools)
  {
    var allBodiesExceptFirst: seq<T> := [];
    var count := 0;
    while count < |bodies|
      invariant 0 <= count <= |bodies|
      invariant allBodiesExceptFirst == if count == 0 then [] else bodies[1..count]
    {
      if count != 0 {
        allBodiesExceptFirst := allBodiesExceptFirst + [bodies[count]];
      }
      count := count + 1;
    }
    if |bodies| == 0 {
      input := None;
    } else {
      assert [bodies[0]] + allBodiesExceptFirst == bodies;
      input := Some(CombineInput(bodies[0], allBodiesExceptFirst, false));
    }
  }
}
