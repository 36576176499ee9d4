# Honeycomb storage wall generator — planning model

The add-in builds a wall of hexagonal storage cells in a CAD host. It takes a width, a
height and three border toggles from a dialog. From these it derives:

- two pattern pitches and four repeat counts, one pair of counts for each of the two offset
  cell patterns;
- whether the top border has to be shifted by half a pitch;
- where each border half-cell goes and how often it is repeated;
- for each border half-cell (`create_half_comb`): its sketch names, split line, inner line,
  lip polygon, chamfer edge indices and final rotation;
- the combine step, which merges every body into the first.

Every geometric effect is produced by calls into the host kernel. This model covers the
arithmetic and the decisions that feed those calls, and treats the calls' arguments as plain
data.

Modules:

- `Constants` (`constants.dfy`):
  - the numeric constants and the side length;
  - the `BorderType` enumeration;
  - `Trig`, which holds tan(pi/6), tan(pi/3), cos(pi/6), sqrt(3) and pi as abstract reals.
    `ValidTrig` constrains them only by the identities the code relies on.
- `Geometry` (`geometry.dfy`):
  - points and lines;
  - closed chains of lines, and the multiset of their endpoints.
- `Utils` (`utils.py`, in `utils.dfy`):
  - the border-type table;
  - split-line and inner-line points;
  - the lip polygon corners and lines, and the loop that draws them;
  - chamfer edge lists and the rotation rule;
  - the whole `create_half_comb` plan (a method composing the steps above);
  - `duplicate_border_body`'s pattern input.
- `Entry` (`entry.dfy`), the planning part of `create_hsw`:
  - pitches and floor-division counts;
  - Python-style parity and the shift rule;
  - border centres and border patterns;
  - the whole wall plan;
  - the combine selection loop.

Every length is an exact `real`. Python's `math.floor` is Dafny's `.Floor`, stated through the
predicate `IsFloorQuotient(q, x, p)`, which means `q * p <= x < (q + 1) * p`. Python's `% 2` is
modelled as `a - 2 * floor(a / 2)` (`PyMod2`), so a count of -1 is odd.

Not every repeat count is non-negative. `floor((height - p1 / 2) / p1)` is -1 for a wall
lower than OUTER_RADIUS, which is half a row pitch:

- `Entry.LowWallHasNegativeRowCount` shows the -1;
- `Entry.CountsNonNegative` states exactly when every count is non-negative.

## Model

| member | source | states |
|---|---|---|
| Constants.SideLength | lib/honeycombStorageWallUtils/constants.py:12 | the side length is positive and equals 2·OUTER_RADIUS/sqrt(3), the side of a hexagon whose apothem is the outer radius |
| Constants.BorderType.Value | lib/honeycombStorageWallUtils/constants.py:20-24 | every enumeration member has a value in 1..4 |
| Constants.BorderTypeOf | lib/honeycombStorageWallUtils/constants.py:20-24 | lookup by value succeeds exactly for 1..4, and the member found carries that value |
| Constants.BorderTypeRoundTrip | lib/honeycombStorageWallUtils/constants.py:20-24 | looking a member up by its own value returns that member, so the values are distinct |
| Constants.BorderTypeMembers | lib/honeycombStorageWallUtils/constants.py:20-24 | there are exactly four distinct members, TOP=1, BOTTOM=2, LEFT=3, RIGHT=4 |
| Constants.OuterRadiusValue | lib/honeycombStorageWallUtils/constants.py:8-11 | OUTER_RADIUS is INNER_RADIUS + RADIUS_OFFSET, which is 1.18 |
| Constants.OffsetSigns | lib/honeycombStorageWallUtils/constants.py:6-9 | INNER_OFFSET and RADIUS_OFFSET are positive, the lip depth is negative (a downward cut) and shallower than the thickness |
| Constants.ChamferAndThicknessValues | lib/honeycombStorageWallUtils/constants.py:14-17 | the chamfer pairs are (0.09, 0.1) and (0.05, 0.04), and the thickness is 0.8 |
| Constants.TrigIdentities | lib/honeycombStorageWallUtils/utils.py:114-156 | tan(pi/3)·tan(pi/6) = 1, 1/tan(pi/3) = tan(pi/6), and 1/cos(pi/6) = 2·tan(pi/6) |
| Constants.TanPi6Bounds | lib/honeycombStorageWallUtils/constants.py:12 | tan(pi/6), pinned down only by its identities, lies strictly between 0.57 and 0.59 |
| Geometry.Midpoint | lib/honeycombStorageWallUtils/utils.py:73-84 | the midpoint is equidistant from both ends of the side in x and in y |
| Geometry.ClosedChainBalanced | lib/honeycombStorageWallUtils/utils.py:168-191 | in a head-to-tail closed loop of lines, the start points and the end points are the same multiset |
| Geometry.ClosedChainEvenDegree | lib/honeycombStorageWallUtils/utils.py:168-191 | in a closed loop, every point is an endpoint twice as often as it is a start point |
| Geometry.ClosedChainEndpoints | lib/honeycombStorageWallUtils/utils.py:168-213 | the endpoints of a closed loop are its start points counted twice |
| Geometry.ReversingKeepsEndpoints | lib/honeycombStorageWallUtils/utils.py:210-213 | drawing one line the other way round leaves the endpoint multiset unchanged |
| Utils.Config | lib/honeycombStorageWallUtils/utils.py:35-54 | the dispatch is total; LEFT/RIGHT split vertically; rotation is 0 or pi, and non-zero exactly for TOP/RIGHT; every name is non-empty |
| Utils.BorderTable | lib/honeycombStorageWallUtils/utils.py:39-54 | the four rows: Bottom 0 horizontal, Top pi horizontal, Left 0 vertical, Right pi vertical |
| Utils.OppositeBordersAreHalfTurns | lib/honeycombStorageWallUtils/utils.py:39-54 | TOP is BOTTOM turned by pi and RIGHT is LEFT turned by pi, each pair with the same split kind |
| Utils.ConfigNamesDistinct | lib/honeycombStorageWallUtils/utils.py:39-57 | different border kinds give different sketch names |
| Utils.SplitLinePoints | lib/honeycombStorageWallUtils/utils.py:65-102 | vertical split: from the midpoint of outer side 5 to that of side 2, with no inner points; horizontal split: the ends of outer sides 0 and 3, plus the ends of inner sides 0 and 3 |
| Utils.InnerLinePoints | lib/honeycombStorageWallUtils/utils.py:105-123 | vertical: both ends move +RADIUS_OFFSET in x and towards each other in y, and the line stays vertical; horizontal: both ends rise by RADIUS_OFFSET and move inwards by RADIUS_OFFSET·tan(pi/6), and the line stays horizontal |
| Utils.TopCornerOffsetX | lib/honeycombStorageWallUtils/utils.py:137 | INNER_OFFSET/tan(pi/3) is positive and equals INNER_OFFSET·tan(pi/6) |
| Utils.RightXOffset | lib/honeycombStorageWallUtils/utils.py:156 | INNER_OFFSET/cos(pi/6) is twice the slanted-corner offset |
| Utils.CornerOffset | lib/honeycombStorageWallUtils/utils.py:195 | the corner offset is non-negative, satisfies d² + INNER_OFFSET² = (2·INNER_OFFSET)², and is three times the slanted-corner offset |
| Utils.CornerOffsetIsTheRoot | lib/honeycombStorageWallUtils/utils.py:195 | every non-negative root of that equation is the corner offset |
| Utils.VerticalLipCorners | lib/honeycombStorageWallUtils/utils.py:141-166 | five corners: two beside the inner line, spread INNER_OFFSET further apart in y; the pointed corner of side 3 is pushed twice as far out as the corners of sides 2 and 4 |
| Utils.HorizontalLipCorners | lib/honeycombStorageWallUtils/utils.py:195-208 | four corners: bottom ones INNER_OFFSET below the inner line and spread outwards symmetrically; top ones INNER_OFFSET above inner sides 5 and 4, spread a third as far |
| Utils.LipPolygon | lib/honeycombStorageWallUtils/utils.py:139-213 | vertical: five lines forming a closed chain through the vertical corners; horizontal: four lines whose endpoints are each corner exactly twice, closed once the bottom line is reversed, in the order bottom-right, bottom-left, top-left, top-right |
| Utils.PentagonThrough | lib/honeycombStorageWallUtils/utils.py:168-191 | five lines, each starting where the last ended and the last returning to the first point, with start points the five given points in order |
| Utils.QuadrilateralLines | lib/honeycombStorageWallUtils/utils.py:210-213 | the bottom line comes first; each corner is an endpoint of exactly two lines; reversing the bottom line gives a closed loop through bottom-right, bottom-left, top-left, top-right in that order |
| Utils.QuadrilateralCloses | lib/honeycombStorageWallUtils/utils.py:210-213 | with the bottom line reversed, the four lines form a closed loop starting at bottom-right, bottom-left, top-left, top-right |
| Utils.QuadrilateralCornersTwice | lib/honeycombStorageWallUtils/utils.py:210-213 | the endpoint multiset of the four lines is the four corners counted twice |
| Utils.DrawLipLines | lib/honeycombStorageWallUtils/utils.py:215-219 | one sketch call per lip line, in order, from the line's start to its end |
| Utils.InnerChamferEdges | lib/honeycombStorageWallUtils/utils.py:229-245 | one edge per lip line, a run of consecutive indices starting at 15 (vertical) or 12 (horizontal) |
| Utils.BottomChamferEdges | lib/honeycombStorageWallUtils/utils.py:249-265 | one edge per lip line, with strictly increasing indices |
| Utils.ChamferEdgeTable | lib/honeycombStorageWallUtils/utils.py:231-261 | the index lists [15..19] and [16,19,21,33,34] (vertical), and [12..15] and [13,16,25,27] (horizontal) |
| Utils.RotationMove | lib/honeycombStorageWallUtils/utils.py:267-283 | a move is issued exactly when the rotation factor is non-zero, rotating by that factor about the border's centre |
| Utils.RotationExactlyForTopAndRight | lib/honeycombStorageWallUtils/utils.py:267-283 | the half-turn move is issued for TOP and RIGHT and for no other kind |
| Utils.CreateHalfComb | lib/honeycombStorageWallUtils/utils.py:29-286 | the whole border plan: names; split line and inner line per kind (midpoints of outer sides 5 and 2 moved by RADIUS_OFFSET, or the ends of inner sides 0 and 3 raised and moved inwards); lip lines through the vertical corners as a closed chain, or through the horizontal corners with every corner twice and closed once the bottom line is reversed; one draw call per lip line; the chamfer index lists of the split kind; extrude profiles 2 and 4 by the thickness; lip cut of profile 0 by LIP_DEPTH; chamfer distances; a pi rotation about the centre exactly for TOP/RIGHT |
| Utils.DirectionOffsets | lib/honeycombStorageWallUtils/utils.py:298-306 | a pattern direction with a positive quantity places `quantity` instances at multiples of its spacing |
| Utils.DuplicateBorderBody | lib/honeycombStorageWallUtils/utils.py:288-308 | the first direction is the given axis, quantity and spacing; the second places exactly one instance, at offset 0 |
| Entry.FloorQuotient | commands/HoneycombStorageWall/entry.py:195-198 | for a positive pitch, floor(x/p) is the floor quotient: q·p <= x < (q+1)·p |
| Entry.FloorQuotientUnique | commands/HoneycombStorageWall/entry.py:195-198 | the floor quotient is unique |
| Entry.PyMod2 | commands/HoneycombStorageWall/entry.py:226-227 | Python's a % 2 is always 0 or 1 and equals the Euclidean remainder |
| Entry.MinusOneIsOdd | commands/HoneycombStorageWall/entry.py:226-227 | a count of -1 counts as odd |
| Entry.ComputeTiling | commands/HoneycombStorageWall/entry.py:193-198 | the first pitch is 2·OUTER_RADIUS; the second is 3·side length and positive; each of the four counts is the floor quotient of its dividend by its pitch |
| Entry.HalfPitchApart | commands/HoneycombStorageWall/entry.py:195-198 | moving the dividend down by half a pitch lowers the floor quotient by 0 or 1 |
| Entry.CountsDifferByAtMostOne | commands/HoneycombStorageWall/entry.py:195-198 | within each direction, the first pattern's count minus the second's is 0 or 1 |
| Entry.LowWallHasNegativeRowCount | commands/HoneycombStorageWall/entry.py:195-197 | below half a row pitch, the row counts are 0 and -1, and the top border is not shifted |
| Entry.CountsNonNegative | commands/HoneycombStorageWall/entry.py:195-198 | all four counts are non-negative exactly when height >= OUTER_RADIUS and width >= 0 |
| Entry.DoHorizontalShift | commands/HoneycombStorageWall/entry.py:223-231 | without a top border the shift stays on; with one, the shift is on exactly when the two row counts have the same parity |
| Entry.ShiftExactlyWhenRowCountsEqual | commands/HoneycombStorageWall/entry.py:223-231 | for a computed tiling, the parity rule means: shift exactly when both patterns have the same number of rows |
| Entry.TopBorderOffset | commands/HoneycombStorageWall/entry.py:233-238 | shifting gives (-p2/2, -p1/2); otherwise (0, 0) |
| Entry.BottomBorderCenter | commands/HoneycombStorageWall/entry.py:219-221 | the bottom border sits on y = 0 at a positive x |
| Entry.TopBorderCenter | commands/HoneycombStorageWall/entry.py:240-243 | unshifted: in the bottom border's column, at height p1·(secondPatternQuantity1 + 1); shifted: half a row lower, at x = side length (the base cell's column) |
| Entry.LeftBorderCenter | commands/HoneycombStorageWall/entry.py:246-251 | the left border is one horizontal pitch left of the bottom border (x = -side length/2), one row pitch up |
| Entry.TopBorderPlacement | commands/HoneycombStorageWall/entry.py:240-243 | the top border's centre lies within one row pitch below the wall's top edge; top.x is the side length (the base cell's column) when shifted, and the bottom border's x otherwise |
| Entry.BottomBorderPattern | commands/HoneycombStorageWall/entry.py:334-335 | the bottom border is repeated along x, secondPatternQuantity2 times at spacing p2 |
| Entry.TopBorderPattern | commands/HoneycombStorageWall/entry.py:337-342 | the top border is repeated along x at spacing p2, firstPatternQuantity2 times when shifted and secondPatternQuantity2 times otherwise |
| Entry.LeftBorderPattern | commands/HoneycombStorageWall/entry.py:344-345 | the left border is repeated along y, secondPatternQuantity1 times at spacing p1 |
| Entry.TopBorderCopies | commands/HoneycombStorageWall/entry.py:334-342 | the top border has as many copies as the bottom one, or one more |
| Entry.PlanWall | commands/HoneycombStorageWall/entry.py:193-345 | the whole plan: the tiling; shift exactly when there is no top border or the row counts are equal; both cell patterns' directions; each border present exactly when toggled, with its kind, placement and repeat count |
| Entry.DefaultWall | commands/HoneycombStorageWall/entry.py:83-84 | the default 10 × 10 wall has 4 and 3 rows and 2 and 2 columns, so its top border is not shifted and is repeated twice |
| Entry.CombineAllBodies | commands/HoneycombStorageWall/entry.py:347-357 | with at least one body: the target is body 0, the tools are bodies 1..n-1 in order (n-1 of them), tools are not kept, and with distinct bodies the target is not a tool; with none there is no input |

## Left out

- Host CAD calls are not modelled. Sketches, scribed polygons, profiles, extrudes and cuts, chamfers, mirror, rectangular patterns, move and combine are foreign calls into the kernel. Only the values passed to them are modelled. The six sides of each scribed hexagon are inputs (`inner`, `outer`).
- Which profile or edge index the host assigns to which face is not modelled. The model keeps the hard-coded indices, so it does not show that they select the intended edges.
- The main cell is not modelled (commands/HoneycombStorageWall/entry.py:206-308). Its sketch, extrude, cut, chamfers and mirror are host calls with constant arguments. Only the two cell patterns' directions (316-332) enter `Entry.PlanWall`.
- The dialog and command lifecycle (commands/HoneycombStorageWall/entry.py:38-152) is UI and I/O. The model takes its values as parameters.
- `command_validate_input` (commands/HoneycombStorageWall/entry.py:139) is not modelled. It reads an input that the dialog never creates.
- The catch-all `except` and its message box (commands/HoneycombStorageWall/entry.py:359-361) are UI. Errors raised by the host are not modelled either. An example is a pattern count of 0 or -1 passed to the rectangular pattern: a wall narrower than three side lengths gives `secondPatternQuantity2 = 0`, and a wall lower than OUTER_RADIUS gives `secondPatternQuantity1 = -1`. The model passes such counts on unchanged.
- Entry.CombineAllBodies: the `None` result for an empty body list is never reached from `create_hsw`. The main cell and its mirror (commands/HoneycombStorageWall/entry.py:253-308) exist before the loop runs. The branch only covers `item(0)` on an empty collection.
- Utils.DirectionOffsets: what the host does with a non-positive count is not known from the source. The empty offset list the function gives for one is an assumption about the host, not a property of utils.py.
- `debug_selection_set_for_bodies_edges` and `debug_selection_set_for_bodies_faces` (lib/honeycombStorageWallUtils/utils.py:7-27) are debugging helpers. They only write selection sets to the host.
- The older copy under lib/fusionAddInUtils/honeycombStorageWallUtils is not part of this model. Nothing in the modelled core imports it.
- Floating-point rounding is not modelled: lengths are exact reals. tan, cos, sqrt and pi are abstract values constrained by their identities, with 3 < pi < 4.
- The `is not None` guards on the border bodies (commands/HoneycombStorageWall/entry.py:334-344) are not modelled separately. `create_half_comb` always returns a body, so in the model each guard reduces to its toggle.
- Utils.LipPolygon: for a horizontal split, the polygon's lines as written do not form a head-to-tail chain, because the bottom line is drawn left to right. The contract states what holds: every corner is an endpoint exactly twice, and the lines close up once the bottom line is reversed.
