/**
 * The fixed dimensions of one honeycomb cell (centimetres, the host's internal unit)
 * and the enumeration of border kinds.
 */
module Constants {
  import opened Wrappers

  /** How far the lip cut reaches into the cell wall, measured from the inner hexagon. */
  const INNER_OFFSET: real := 0.1
  /** Depth of the lip cut; negative because the cut goes down from the top plane. */
  const LIP_DEPTH: real := -0.29
  /** Apothem of the inner (hole) hexagon. */
  const INNER_RADIUS: real := 1.0
  /** Wall thickness between the inner and the outer hexagon. */
  const RADIUS_OFFSET: real := 0.18

  /** Apothem of the outer hexagon. */
  const OUTER_RADIUS: real := INNER_RADIUS + RADIUS_OFFSET

  /** Extrusion height of every cell and border body. */
  const TOTAL_THICKNESS: real := 0.8

  /** The two distances of the chamfer on the lip's inner edge. */
  const INNER_CHAMFER_DISTANCES: seq<real> := [0.09, 0.1]
  /** The two distances of the chamfer on the bottom inner edge. */
  const BOTTOM_CHAMFER_DISTANCES: seq<real> := [0.05, 0.04]

  /**
   * The values the source takes from its maths library: tan(pi/6), tan(pi/3), cos(pi/6),
   * sqrt(3) and pi itself. They are irrational, so the model keeps them abstract and
   * constrains them only by the identities below.
   */
  datatype Trig = Trig(tanPi6: real, tanPi3: real, cosPi6: real, sqrt3: real, pi: real)

  predicate ValidTrig(t: Trig)
  {
    && t.sqrt3 > 0.0 && t.sqrt3 * t.sqrt3 == 3.0
    && t.tanPi6 > 0.0 && t.tanPi6 * t.sqrt3 == 1.0
    && t.tanPi3 > 0.0 && t.tanPi3 == t.sqrt3
    && t.cosPi6 > 0.0 && 2.0 * t.cosPi6 == t.sqrt3
    && 3.0 < t.pi < 4.0
  }

  /**
   * Side length of the outer hexagon: OUTER_RADIUS * 2 * tan(pi/6), which is the side of a
   * regular hexagon whose apothem is OUTER_RADIUS, that is 2 * OUTER_RADIUS / sqrt(3).
   */
  function SideLength(t: Trig): (s: real)
    requires ValidTrig(t)
    ensures s > 0.0
    ensures s * t.sqrt3 == 2.0 * OUTER_RADIUS
  {
    OUTER_RADIUS * (2.0 * t.tanPi6)
  }

  /** The four kinds of border closure, with the integer values the enumeration gives them. */
  datatype BorderType = TOP | BOTTOM | LEFT | RIGHT
  {
    function Value(): (v: int)
      ensures 1 <= v <= 4
    {
      match this
      case TOP => 1
      case BOTTOM => 2
      case LEFT => 3
      case RIGHT => 4
    }
  }

  /** Lookup of an enumeration member by value; values outside 1..4 name no member. */
  function BorderTypeOf(v: int): (r: Option<BorderType>)
    ensures r.Some? <==> 1 <= v <= 4
    ensures r.Some? ==> r.value.Value() == v
  {
    if v == 1 then Some(TOP)
    else if v == 2 then Some(BOTTOM)
    else if v == 3 then Some(LEFT)
    else if v == 4 then Some(RIGHT)
    else None
  }

  /** Looking a member up by its own value gives that member back, so the values are distinct. */
  lemma BorderTypeRoundTrip(b: BorderType)
    ensures BorderTypeOf(b.Value()) == Some(b)
  {
  }

  /** The enumeration has four distinct members with the values 1..4. */
  lemma BorderTypeMembers()
    ensures |{TOP, BOTTOM, LEFT, RIGHT}| == 4
    ensures TOP.Value() == 1 && BOTTOM.Value() == 2 && LEFT.Value() == 3 && RIGHT.Value() == 4
  {
  }

  /** The outer radius is the inner radius plus the wall thickness, 1.18. */
  lemma OuterRadiusValue()
    ensures OUTER_RADIUS == INNER_RADIUS + RADIUS_OFFSET == 1.18
  {
  }

  /** Offsets are positive and the lip cut goes downward. */
  lemma OffsetSigns()
    ensures INNER_OFFSET > 0.0 && RADIUS_OFFSET > 0.0 && LIP_DEPTH < 0.0
    ensures INNER_OFFSET < RADIUS_OFFSET && -LIP_DEPTH < TOTAL_THICKNESS
  {
  }

  /** The chamfer pairs and the thickness. */
  lemma ChamferAndThicknessValues()
    ensures INNER_CHAMFER_DISTANCES == [0.09, 0.1] && BOTTOM_CHAMFER_DISTANCES == [0.05, 0.04]
    ensures TOTAL_THICKNESS == 0.8
  {
  }

  /** tan(pi/3) and tan(pi/6) are reciprocal, and 1 / cos(pi/6) is twice tan(pi/6). */
  lemma TrigIdentities(t: Trig)
    requires ValidTrig(t)
    ensures t.tanPi3 * t.tanPi6 == 1.0
    ensures 1.0 / t.tanPi3 == t.tanPi6
    ensures 1.0 / t.cosPi6 == 2.0 * t.tanPi6
  {
    assert t.tanPi3 * t.tanPi6 == 1.0;
    assert t.cosPi6 * (2.0 * t.tanPi6) == t.sqrt3 * t.tanPi6 == 1.0;
  }
  /** Squaring is strictly increasing on the non-negative reals. */
  lemma SquareStrictlyMonotone(a: real, b: real)
    requires 0.0 <= a < b
    ensures a * a < b * b
  {
    assert a * (b - a) >= 0.0;
    assert b * (b - a) > 0.0;
    assert b * b - a * a == a * (b - a) + b * (b - a);
  }

  /** tan(pi/6) is 1 / sqrt(3), between 0.57 and 0.59. */
  lemma TanPi6Bounds(t: Trig)
    requires ValidTrig(t)
    ensures 0.57 < t.tanPi6 < 0.59
  {
    var u := t.tanPi6;
    assert 3.0 * (u * u) == (u * t.sqrt3) * (u * t.sqrt3) == 1.0;
    if u <= 0.57 {
      if u < 0.57 { SquareStrictlyMonotone(u, 0.57); }
    } else if u >= 0.59 {
      if u > 0.59 { SquareStrictlyMonotone(0.59, u); }
    }
  }
}
