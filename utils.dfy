/**
 * The planning half of `create_half_comb` and `duplicate_border_body`: which border kind
 * gets which name, rotation and split, where the split line, the inner line and the lip
 * polygon go, which edges are chamfered, and what the border pattern is asked to do.
 * The hexagon sketch lines themselves are drawn by the host; they are inputs here.
 */
module Utils {
  import opened Wrappers
  import opened Geometry
  import opened Constants

  /** `addScribedPolygon(..., 6, ...)` returns the six sides of a hexagon. */
  const HEXAGON_SIDES: nat := 6

  // ---------------------------------------------------------------------------------------
  // The border-type table

  /** What a border kind selects: its display name, the turn applied at the end, the split. */
  datatype BorderConfig = BorderConfig(name: string, rotationFactor: real, verticalSplit: bool)

  /** The if/elif dispatch at the head of `create_half_comb`. */
  function Config(b: BorderType, t: Trig): (c: BorderConfig)
    requires ValidTrig(t)
    ensures c.verticalSplit <==> (b == LEFT || b == RIGHT)
    ensures c.rotationFactor == 0.0 || c.rotationFactor == t.pi
    ensures c.rotationFactor != 0.0 <==> (b == TOP || b == RIGHT)
    ensures |c.name| > 0
  {
    match b
    case BOTTOM => BorderConfig("Bottom", 0.0, false)
    case TOP => BorderConfig("Top", t.pi, false)
    case LEFT => BorderConfig("Left", 0.0, true)
    case RIGHT => BorderConfig("Right", t.pi, true)
  }

  /** The whole table, row by row. */
  lemma BorderTable(t: Trig)
    requires ValidTrig(t)
    ensures Config(BOTTOM, t) == BorderConfig("Bottom", 0.0, false)
    ensures Config(TOP, t) == BorderConfig("Top", t.pi, false)
    ensures Config(LEFT, t) == BorderConfig("Left", 0.0, true)
    ensures Config(RIGHT, t) == BorderConfig("Right", t.pi, true)
  {
  }

  /**
   * TOP is BOTTOM turned half a revolution, and RIGHT is LEFT turned half a revolution:
   * each pair shares its split kind and differs in rotation by exactly pi.
   */
  lemma OppositeBordersAreHalfTurns(t: Trig)
    requires ValidTrig(t)
    ensures Config(TOP, t).verticalSplit == Config(BOTTOM, t).verticalSplit
    ensures Config(TOP, t).rotationFactor - Config(BOTTOM, t).rotationFactor == t.pi
    ensures Config(RIGHT, t).verticalSplit == Config(LEFT, t).verticalSplit
    ensures Config(RIGHT, t).rotationFactor - Config(LEFT, t).rotationFactor == t.pi
  {
  }

  /** Different border kinds name their sketches differently. */
  lemma ConfigNamesDistinct(a: BorderType, b: BorderType, t: Trig)
    requires ValidTrig(t)
    ensures a != b ==> Config(a, t).name != Config(b, t).name
  {
    var na, nb := Config(a, t).name, Config(b, t).name;
    if a != b {
      assert |na| != |nb|;
    }
  }

  // ---------------------------------------------------------------------------------------
  // Split line and inner line

  /**
   * The endpoints of the split line (and, for a horizontal split, of the matching chord of
   * the inner hexagon). A vertical split joins the midpoints of outer sides 5 and 2; a
   * horizontal split joins the ends of outer sides 0 and 3.
   */
  method SplitLinePoints(inner: seq<Line>, outer: seq<Line>, verticalSplit: bool)
    returns (split: seq<Point>, innerSplit: seq<Point>)
    requires |inner| == HEXAGON_SIDES && |outer| == HEXAGON_SIDES
    ensures |split| == 2
    ensures verticalSplit ==> split[0] == Midpoint(outer[5]) && split[1] == Midpoint(outer[2]) && innerSplit == []
    ensures !verticalSplit ==> split == [outer[0].end, outer[3].end] && innerSplit == [inner[0].end, inner[3].end]
  {
    split, innerSplit := [], [];
    if verticalSplit {
      var bottomMidPoint := Midpoint(outer[2]);
      var topMidPoint := Midpoint(outer[5]);
      split := split + [topMidPoint];
      split := split + [bottomMidPoint];
    } else {
      split := split + [outer[0].end];
      split := split + [outer[3].end];
      innerSplit := innerSplit + [inner[0].end];
      innerSplit := innerSplit + [inner[3].end];
    }
  }

  /**
   * The endpoints of the inner line, which closes the half cell on the side of the split.
   * Vertical split: the split line moved RADIUS_OFFSET to the right, each end pulled
   * RADIUS_OFFSET towards the other. Horizontal split: the inner chord raised by
   * RADIUS_OFFSET, each end moved RADIUS_OFFSET / tan(pi/3) inwards, so that it stays on
   * the slanted sides of the inner hexagon.
   */
  method InnerLinePoints(split: seq<Point>, innerSplit: seq<Point>, verticalSplit: bool, t: Trig)
    returns (points: seq<Point>)
    requires ValidTrig(t)
    requires |split| == 2 && (!verticalSplit ==> |innerSplit| == 2)
    ensures |points| == 2
    ensures verticalSplit ==>
      && points[0] == Translate(split[0], RADIUS_OFFSET, -RADIUS_OFFSET)
      && points[1] == Translate(split[1], RADIUS_OFFSET, RADIUS_OFFSET)
      && points[0].y - points[1].y == (split[0].y - split[1].y) - 2.0 * RADIUS_OFFSET
      && (split[0].x == split[1].x ==> points[0].x == points[1].x)
    ensures !verticalSplit ==>
      && points[0] == Translate(innerSplit[0], RADIUS_OFFSET * t.tanPi6, RADIUS_OFFSET)
      && points[1] == Translate(innerSplit[1], -RADIUS_OFFSET * t.tanPi6, RADIUS_OFFSET)
      && points[1].x - points[0].x == (innerSplit[1].x - innerSplit[0].x) - 2.0 * RADIUS_OFFSET * t.tanPi6
      && (innerSplit[0].y == innerSplit[1].y ==> points[0].y == points[1].y)
  {
    points := [];
    if verticalSplit {
      var xOffset := RADIUS_OFFSET;
      var yOffset := RADIUS_OFFSET;
      points := points + [Point(split[0].x + xOffset, split[0].y - yOffset)];
      points := points + [Point(split[1].x + xOffset, split[1].y + yOffset)];
    } else {
      var xOffset := RADIUS_OFFSET / t.tanPi3;
      var yOffset := RADIUS_OFFSET;
      TrigIdentities(t);
      assert xOffset == RADIUS_OFFSET * (1.0 / t.tanPi3) == RADIUS_OFFSET * t.tanPi6;
      points := points + [Point(innerSplit[0].x + xOffset, innerSplit[0].y + yOffset)];
      points := points + [Point(innerSplit[1].x - xOffset, innerSplit[1].y + yOffset)];
    }
  }

  // ---------------------------------------------------------------------------------------
  // Lip polygon

  /** Horizontal reach of the lip's slanted corners: INNER_OFFSET / tan(pi/3). */
  function TopCornerOffsetX(t: Trig): (d: real)
    requires ValidTrig(t)
    ensures d > 0.0
    ensures d == INNER_OFFSET * t.tanPi6
  {
    TrigIdentities(t);
    INNER_OFFSET / t.tanPi3
  }

  /** Horizontal reach of the lip at the pointed corner: INNER_OFFSET / cos(pi/6). */
  function RightXOffset(t: Trig): (d: real)
    requires ValidTrig(t)
    ensures d == 2.0 * TopCornerOffsetX(t)
  {
    TrigIdentities(t);
    INNER_OFFSET / t.cosPi6
  }

  /** sqrt((2 * INNER_OFFSET)^2 - INNER_OFFSET^2), that is INNER_OFFSET * sqrt(3). */
  function CornerOffset(t: Trig): (d: real)
    requires ValidTrig(t)
    ensures d >= 0.0
    ensures d * d + INNER_OFFSET * INNER_OFFSET == (2.0 * INNER_OFFSET) * (2.0 * INNER_OFFSET)
    ensures d == 3.0 * TopCornerOffsetX(t)
  {
    assert t.sqrt3 * t.tanPi6 == 1.0;
    assert 3.0 * (INNER_OFFSET * t.tanPi6) == INNER_OFFSET * (t.sqrt3 * t.sqrt3) * t.tanPi6;
    INNER_OFFSET * t.sqrt3
  }

  /** The corner offset is the only non-negative root the source's square root can mean. */
  lemma CornerOffsetIsTheRoot(t: Trig, c: real)
    requires ValidTrig(t)
    requires c >= 0.0 && c * c == (2.0 * INNER_OFFSET) * (2.0 * INNER_OFFSET) - INNER_OFFSET * INNER_OFFSET
    ensures c == CornerOffset(t)
  {
    var d := CornerOffset(t);
    if c < d {
      SquareStrictlyMonotone(c, d);
    } else if d < c {
      SquareStrictlyMonotone(d, c);
    }
  }


  /**
   * The five corners of the lip for a vertical split: two beside the inner line, then the
   * ends of inner sides 2, 3 and 4 pushed out by the lip offset. The pointed corner (side
   * 3) is pushed twice as far sideways as its two neighbours.
   */
  function VerticalLipCorners(innerLine: Line, inner: seq<Line>, t: Trig): (c: seq<Point>)
    requires ValidTrig(t) && |inner| == HEXAGON_SIDES
    ensures |c| == 5
    ensures c[0].x == c[1].x + (innerLine.start.x - innerLine.end.x)
    ensures c[0].y - c[1].y == (innerLine.start.y - innerLine.end.y) + 2.0 * INNER_OFFSET
    ensures c[3].x - inner[3].end.x == 2.0 * (c[2].x - inner[2].end.x) == 2.0 * (c[4].x - inner[4].end.x)
    ensures c[4].y - inner[4].end.y == inner[2].end.y - c[2].y == INNER_OFFSET
  {
    var topCornerOffsetX := TopCornerOffsetX(t);
    var rightXOffset := RightXOffset(t);
    [ Point(innerLine.start.x - INNER_OFFSET, innerLine.start.y + INNER_OFFSET),
      Point(innerLine.end.x - INNER_OFFSET, innerLine.end.y - INNER_OFFSET),
      Point(inner[2].end.x + topCornerOffsetX, inner[2].end.y - INNER_OFFSET),
      Point(inner[3].end.x + rightXOffset, inner[3].end.y),
      Point(inner[4].end.x + topCornerOffsetX, inner[4].end.y + INNER_OFFSET) ]
  }

  /**
   * The four corners of the lip for a horizontal split, in the order bottom-left,
   * bottom-right, top-left, top-right: the inner line's ends moved down and outwards, and
   * the ends of inner sides 5 and 4 moved up and outwards. The bottom corners spread three
   * times as far as the top ones.
   */
  function HorizontalLipCorners(innerLinePoints: seq<Point>, inner: seq<Line>, t: Trig): (c: seq<Point>)
    requires ValidTrig(t) && |innerLinePoints| == 2 && |inner| == HEXAGON_SIDES
    ensures |c| == 4
    ensures c[0].y == innerLinePoints[0].y - INNER_OFFSET && c[1].y == innerLinePoints[1].y - INNER_OFFSET
    ensures c[2].y == inner[5].end.y + INNER_OFFSET && c[3].y == inner[4].end.y + INNER_OFFSET
    ensures innerLinePoints[0].x - c[0].x == c[1].x - innerLinePoints[1].x
              == 3.0 * (inner[5].end.x - c[2].x) == 3.0 * (c[3].x - inner[4].end.x)
  {
    var cornerOffset := CornerOffset(t);
    var topCornerOffsetX := TopCornerOffsetX(t);
    [ Point(innerLinePoints[0].x - cornerOffset, innerLinePoints[0].y - INNER_OFFSET),
      Point(innerLinePoints[1].x + cornerOffset, innerLinePoints[1].y - INNER_OFFSET),
      Point(inner[5].end.x - topCornerOffsetX, inner[5].end.y + INNER_OFFSET),
      Point(inner[4].end.x + topCornerOffsetX, inner[4].end.y + INNER_OFFSET) ]
  }

  /**
   * The lines of the lip polygon (`manualPolyCoords`). A vertical split gives five lines
   * that run round the corners head to tail. A horizontal split gives four lines, bottom,
   * left, top, right, with every corner an endpoint of exactly two of them; drawing the
   * bottom line the other way round makes them a head-to-tail loop.
   */
  method LipPolygon(innerLinePoints: seq<Point>, inner: seq<Line>, verticalSplit: bool, t: Trig)
    returns (coords: seq<Line>)
    requires ValidTrig(t) && |innerLinePoints| == 2 && |inner| == HEXAGON_SIDES
    ensures |coords| == LipLineCount(verticalSplit)
    ensures verticalSplit ==>
      && ClosedChain(coords)
      && Starts(coords) == VerticalLipCorners(Line(innerLinePoints[0], innerLinePoints[1]), inner, t)
    ensures !verticalSplit ==>
      var c := HorizontalLipCorners(innerLinePoints, inner, t);
      && coords[0] == Line(c[0], c[1])
      && Endpoints(coords) == multiset([c[1], c[0], c[2], c[3]]) + multiset([c[1], c[0], c[2], c[3]])
      && ClosedChain(coords[0 := Reversed(coords[0])])
      && Starts(coords[0 := Reversed(coords[0])]) == [c[1], c[0], c[2], c[3]]
  {
    if verticalSplit {
      var c := VerticalLipCorners(Line(innerLinePoints[0], innerLinePoints[1]), inner, t);
      coords := PentagonThrough(c[0], c[1], c[2], c[3], c[4]);
    } else {
      var c := HorizontalLipCorners(innerLinePoints, inner, t);
      coords := QuadrilateralLines(c[0], c[1], c[2], c[3]);
    }
  }

  /** The vertical-split lip: five lines through the corners in order, back to the first. */
  method PentagonThrough(firstPoint: Point, secondPoint: Point, thirdPoint: Point, fourthPoint: Point, fifthPoint: Point)
    returns (coords: seq<Line>)
    ensures |coords| == 5 && ClosedChain(coords)
    ensures Starts(coords) == [firstPoint, secondPoint, thirdPoint, fourthPoint, fifthPoint]
  {
    coords := [];
    coords := coords + [Line(firstPoint, secondPoint)];
    coords := coords + [Line(secondPoint, thirdPoint)];
    coords := coords + [Line(thirdPoint, fourthPoint)];
    coords := coords + [Line(fourthPoint, fifthPoint)];
    coords := coords + [Line(fifthPoint, firstPoint)];
  }

  /**
   * The horizontal-split lip: bottom, left, top and right lines, each corner an endpoint of
   * exactly two of them.
   */
  method QuadrilateralLines(bottomLeft: Point, bottomRight: Point, topLeft: Point, topRight: Point)
    returns (coords: seq<Line>)
    ensures |coords| == 4 && coords[0] == Line(bottomLeft, bottomRight)
    ensures var corners := multiset([bottomRight, bottomLeft, topLeft, topRight]);
      Endpoints(coords) == corners + corners
    ensures ClosedChain(coords[0 := Reversed(coords[0])])
    ensures Starts(coords[0 := Reversed(coords[0])]) == [bottomRight, bottomLeft, topLeft, topRight]
  {
    coords := [];
    coords := coords + [Line(bottomLeft, bottomRight)];
    coords := coords + [Line(bottomLeft, topLeft)];
    coords := coords + [Line(topLeft, topRight)];
    coords := coords + [Line(topRight, bottomRight)];
    QuadrilateralCloses(bottomLeft, bottomRight, topLeft, topRight, coords);
    QuadrilateralCornersTwice(bottomLeft, bottomRight, topLeft, topRight, coords);
  }

  /** The four lines bottom, left, top, right close up once the bottom one is drawn from right to left. */
  lemma QuadrilateralCloses(bottomLeft: Point, bottomRight: Point, topLeft: Point, topRight: Point, coords: seq<Line>)
    requires coords == [Line(bottomLeft, bottomRight), Line(bottomLeft, topLeft), Line(topLeft, topRight), Line(topRight, bottomRight)]
    ensures ClosedChain(coords[0 := Reversed(coords[0])])
    ensures Starts(coords[0 := Reversed(coords[0])]) == [bottomRight, bottomLeft, topLeft, topRight]
  {
    var loop := coords[0 := Reversed(coords[0])];
    assert loop == [Line(bottomRight, bottomLeft), Line(bottomLeft, topLeft), Line(topLeft, topRight), Line(topRight, bottomRight)];
  }

  /**
   * Hence each corner of the four lines is an endpoint of exactly two of them: the endpoint
   * multiset is the corner list counted twice.
   */
  lemma QuadrilateralCornersTwice(bottomLeft: Point, bottomRight: Point, topLeft: Point, topRight: Point, coords: seq<Line>)
    requires coords == [Line(bottomLeft, bottomRight), Line(bottomLeft, topLeft), Line(topLeft, topRight), Line(topRight, bottomRight)]
    ensures var corners := multiset([bottomRight, bottomLeft, topLeft, topRight]);
      Endpoints(coords) == corners + corners
  {
    QuadrilateralCloses(bottomLeft, bottomRight, topLeft, topRight, coords);
    var loop := coords[0 := Reversed(coords[0])];
    ClosedChainEndpoints(loop);
    ReversingKeepsEndpoints(coords, 0);
  }

  /** One host sketch call `addByTwoPoints(from, to)`. */
  datatype SketchCall = AddByTwoPoints(from: Point, to: Point)

  /** The loop that draws the lip polygon: one line per entry, in order. */
  method DrawLipLines(coords: seq<Line>) returns (calls: seq<SketchCall>)
    ensures |calls| == |coords|
    ensures forall i :: 0 <= i < |coords| ==> calls[i] == AddByTwoPoints(coords[i].start, coords[i].end)
  {
    calls := [];
    for i := 0 to |coords|
      invariant |calls| == i
      invariant forall k :: 0 <= k < i ==> calls[k] == AddByTwoPoints(coords[k].start, coords[k].end)
    {
      calls := calls + [AddByTwoPoints(coords[i].start, coords[i].end)];
    }
  }

  // ---------------------------------------------------------------------------------------
  // Chamfer edges

  /** Edges selected by position in the extruded body's edge list, with two chamfer distances. */
  datatype ChamferSet = ChamferSet(edges: seq<nat>, distances: seq<real>)

  /** The number of lines in the lip polygon of a split kind. */
  function LipLineCount(verticalSplit: bool): nat
  {
    if verticalSplit then 5 else 4
  }

  /** The lip's inner edges: a run of consecutive edge indices, one per lip line. */
  function InnerChamferEdges(verticalSplit: bool): (e: seq<nat>)
    ensures |e| == LipLineCount(verticalSplit)
    ensures e[0] == if verticalSplit then 15 else 12
    ensures forall i :: 0 < i < |e| ==> e[i] == e[i - 1] + 1
  {
    if verticalSplit then [15, 16, 17, 18, 19] else [12, 13, 14, 15]
  }

  /** The bottom edges: strictly increasing indices, one per lip line. */
  function BottomChamferEdges(verticalSplit: bool): (e: seq<nat>)
    ensures |e| == LipLineCount(verticalSplit)
    ensures forall i, j :: 0 <= i < j < |e| ==> e[i] < e[j]
  {
    if verticalSplit then [16, 19, 21, 33, 34] else [13, 16, 25, 27]
  }

  /** The hard-coded index lists themselves. */
  lemma ChamferEdgeTable()
    ensures InnerChamferEdges(true) == [15, 16, 17, 18, 19] && BottomChamferEdges(true) == [16, 19, 21, 33, 34]
    ensures InnerChamferEdges(false) == [12, 13, 14, 15] && BottomChamferEdges(false) == [13, 16, 25, 27]
  {
  }

  // ---------------------------------------------------------------------------------------
  // The final turn

  /** A move feature: a rotation by `angle` about the z axis through `origin`. */
  datatype Move = Rotation(angle: real, origin: Point)

  /** The move feature is issued only when the rotation factor is non-zero. */
  function RotationMove(c: BorderConfig, center: Point): (m: Option<Move>)
    ensures m.Some? <==> c.rotationFactor != 0.0
    ensures m.Some? ==> m.value.angle == c.rotationFactor && m.value.origin == center
  {
    if c.rotationFactor != 0.0 then Some(Rotation(c.rotationFactor, center)) else None
  }

  /** TOP and RIGHT, and only they, are turned half a revolution about their own centre. */
  lemma RotationExactlyForTopAndRight(b: BorderType, center: Point, t: Trig)
    requires ValidTrig(t)
    ensures RotationMove(Config(b, t), center).Some? <==> (b == TOP || b == RIGHT)
    ensures RotationMove(Config(b, t), center).Some? ==> RotationMove(Config(b, t), center).value == Rotation(t.pi, center)
  {
  }

  // ---------------------------------------------------------------------------------------
  // The whole border body

  /** Everything `create_half_comb` passes to the host for one border body. */
  datatype HalfComb = HalfComb(
    sketchName: string,
    topSketchName: string,
    splitLine: Line,
    innerLine: Line,
    extrudeProfiles: seq<nat>,
    extrudeDistance: real,
    lipCoords: seq<Line>,
    lipCalls: seq<SketchCall>,
    lipProfile: nat,
    lipDepth: real,
    innerChamfer: ChamferSet,
    bottomChamfer: ChamferSet,
    move: Option<Move>)

  /**
   * The plan of `create_half_comb` for border kind `b` centred at `center`, given the
   * inner and outer hexagon sides the host drew there.
   */
  method CreateHalfComb(b: BorderType, center: Point, inner: seq<Line>, outer: seq<Line>, t: Trig)
    returns (h: HalfComb)
    requires ValidTrig(t) && |inner| == HEXAGON_SIDES && |outer| == HEXAGON_SIDES
    ensures h.sketchName == "Honeycomb_Border_" + Config(b, t).name
    ensures h.topSketchName == "Honeycomb_BorderTop_" + Config(b, t).name
    ensures (b == LEFT || b == RIGHT) ==> h.splitLine == Line(Midpoint(outer[5]), Midpoint(outer[2]))
    ensures (b == TOP || b == BOTTOM) ==> h.splitLine == Line(outer[0].end, outer[3].end)
    ensures (b == LEFT || b == RIGHT) ==>
      h.innerLine == Line(Translate(Midpoint(outer[5]), RADIUS_OFFSET, -RADIUS_OFFSET),
                          Translate(Midpoint(outer[2]), RADIUS_OFFSET, RADIUS_OFFSET))
    ensures (b == TOP || b == BOTTOM) ==>
      h.innerLine == Line(Translate(inner[0].end, RADIUS_OFFSET * t.tanPi6, RADIUS_OFFSET),
                          Translate(inner[3].end, -RADIUS_OFFSET * t.tanPi6, RADIUS_OFFSET))
    ensures |h.lipCoords| == LipLineCount(Config(b, t).verticalSplit)
    ensures (b == LEFT || b == RIGHT) ==>
      && ClosedChain(h.lipCoords)
      && Starts(h.lipCoords) == VerticalLipCorners(h.innerLine, inner, t)
    ensures (b == TOP || b == BOTTOM) ==>
      var c := HorizontalLipCorners([h.innerLine.start, h.innerLine.end], inner, t);
      && h.lipCoords[0] == Line(c[0], c[1])
      && Endpoints(h.lipCoords) == multiset([c[1], c[0], c[2], c[3]]) + multiset([c[1], c[0], c[2], c[3]])
      && ClosedChain(h.lipCoords[0 := Reversed(h.lipCoords[0])])
      && Starts(h.lipCoords[0 := Reversed(h.lipCoords[0])]) == [c[1], c[0], c[2], c[3]]
    ensures h.innerChamfer.edges == InnerChamferEdges(Config(b, t).verticalSplit)
    ensures h.bottomChamfer.edges == BottomChamferEdges(Config(b, t).verticalSplit)
    ensures |h.lipCalls| == |h.lipCoords| == |h.innerChamfer.edges| == |h.bottomChamfer.edges|
    ensures forall i :: 0 <= i < |h.lipCoords| ==> h.lipCalls[i] == AddByTwoPoints(h.lipCoords[i].start, h.lipCoords[i].end)
    ensures h.extrudeProfiles == [2, 4] && h.extrudeDistance == TOTAL_THICKNESS
    ensures h.lipProfile == 0 && h.lipDepth == LIP_DEPTH
    ensures h.innerChamfer.distances == INNER_CHAMFER_DISTANCES
    ensures h.bottomChamfer.distances == BOTTOM_CHAMFER_DISTANCES
    ensures h.move.Some? <==> (b == TOP || b == RIGHT)
    ensures h.move.Some? ==> h.move.value == Rotation(t.pi, center)
  {
    var config := Config(b, t);
    var verticalSplit := config.verticalSplit;
    var splitPoints, innerSplitPoints := SplitLinePoints(inner, outer, verticalSplit);
    var splitLine := Line(splitPoints[0], splitPoints[1]);
    var innerLinePoints := InnerLinePoints(splitPoints, innerSplitPoints, verticalSplit, t);
    var innerLine := Line(innerLinePoints[0], innerLinePoints[1]);
    assert [innerLine.start, innerLine.end] == innerLinePoints;
    var coords := LipPolygon(innerLinePoints, inner, verticalSplit, t);
    var calls := DrawLipLines(coords);
    RotationExactlyForTopAndRight(b, center, t);
    h := HalfComb(
      "Honeycomb_Border_" + config.name,
      "Honeycomb_BorderTop_" + config.name,
      splitLine,
      innerLine,
      [2, 4],
      TOTAL_THICKNESS,
      coords,
      calls,
      0,
      LIP_DEPTH,
      ChamferSet(InnerChamferEdges(verticalSplit), INNER_CHAMFER_DISTANCES),
      ChamferSet(BottomChamferEdges(verticalSplit), BOTTOM_CHAMFER_DISTANCES),
      RotationMove(config, center));
  }

  // ---------------------------------------------------------------------------------------
  // Border pattern

  /** The host's construction axes. */
  datatype Axis = XAxis | YAxis

  /** One direction of a rectangular pattern: along `axis`, `quantity` instances `distance` apart. */
  datatype PatternDirection = Direction(axis: Axis, quantity: int, distance: real)

  /** A two-direction rectangular pattern input. */
  datatype PatternInput = PatternInput(first: PatternDirection, second: PatternDirection)

  /** The instance offsets along one direction; a non-positive quantity places none. */
  function DirectionOffsets(d: PatternDirection): (s: seq<real>)
    ensures |s| == if d.quantity > 0 then d.quantity else 0
    ensures forall k :: 0 <= k < |s| ==> s[k] == (k as real) * d.distance
  {
    if d.quantity > 0 then seq(d.quantity, k requires 0 <= k => (k as real) * d.distance) else []
  }

  /**
   * `duplicate_border_body`: the border is repeated along the given axis; the second
   * direction is fixed to the x axis, a single instance at spacing zero.
   */
  function DuplicateBorderBody(axis: Axis, quantity: int, distance: real): (p: PatternInput)
    ensures p.first == Direction(axis, quantity, distance)
    ensures DirectionOffsets(p.second) == [0.0]
  {
    PatternInput(Direction(axis, quantity, distance), Direction(XAxis, 1, 0.0))
  }
}
