/** Plane points and sketch lines, and what it means for a list of lines to close up. */
module Geometry {

  /** A sketch point; every sketch of the model lies in one plane, so z is left out. */
  datatype Point = Point(x: real, y: real)

  /** A sketch line from `start` to `end` (the pair of points passed to `addByTwoPoints`). */
  datatype Line = Line(start: Point, end: Point)

  /** The point `p` moved by (dx, dy). */
  function Translate(p: Point, dx: real, dy: real): (q: Point)
    ensures q.x - p.x == dx && q.y - p.y == dy
  {
    Point(p.x + dx, p.y + dy)
  }

  /** The midpoint of a line: the average of its two endpoints. */
  function Midpoint(l: Line): (m: Point)
    ensures m.x - l.start.x == l.end.x - m.x
    ensures m.y - l.start.y == l.end.y - m.y
  {
    Point((l.start.x + l.end.x) / 2.0, (l.start.y + l.end.y) / 2.0)
  }

  /** The same line drawn the other way round. */
  function Reversed(l: Line): (r: Line)
    ensures r.start == l.end && r.end == l.start
  {
    Line(l.end, l.start)
  }

  /** The start points of the lines, in order. */
  function Starts(ls: seq<Line>): (s: seq<Point>)
    ensures |s| == |ls| && forall i :: 0 <= i < |ls| ==> s[i] == ls[i].start
  {
    seq(|ls|, i requires 0 <= i < |ls| => ls[i].start)
  }

  /** The end points of the lines, in order. */
  function Ends(ls: seq<Line>): (s: seq<Point>)
    ensures |s| == |ls| && forall i :: 0 <= i < |ls| ==> s[i] == ls[i].end
  {
    seq(|ls|, i requires 0 <= i < |ls| => ls[i].end)
  }

  /** Every endpoint of every line, counted with multiplicity. */
  function Endpoints(ls: seq<Line>): multiset<Point>
  {
    multiset(Starts(ls)) + multiset(Ends(ls))
  }

  /** Each line starts where the previous one ended, and the last one ends where the first starts. */
  predicate ClosedChain(ls: seq<Line>)
  {
    && |ls| > 0
    && (forall i :: 0 <= i < |ls| - 1 ==> ls[i].end == ls[i + 1].start)
    && ls[|ls| - 1].end == ls[0].start
  }

  /** In a closed chain every point is left as often as it is entered. */
  lemma ClosedChainBalanced(ls: seq<Line>)
    requires ClosedChain(ls)
    ensures multiset(Starts(ls)) == multiset(Ends(ls))
  {
    var s, e := Starts(ls), Ends(ls);
    var rotated := s[1..] + [s[0]];
    assert |rotated| == |e|;
    forall i | 0 <= i < |e| ensures e[i] == rotated[i] {
      if i < |e| - 1 {
        assert e[i] == ls[i].end == ls[i + 1].start == s[i + 1];
      }
    }
    assert e == rotated;
    assert s == [s[0]] + s[1..];
    assert multiset(s) == multiset([s[0]]) + multiset(s[1..]);
  }

  /** In a closed chain every point is an endpoint an even number of times: twice per visit. */
  lemma ClosedChainEvenDegree(ls: seq<Line>, p: Point)
    requires ClosedChain(ls)
    ensures Endpoints(ls)[p] == 2 * multiset(Starts(ls))[p]
  {
    ClosedChainBalanced(ls);
  }

  /** So the endpoints of a closed chain are its start points, each counted twice. */
  lemma ClosedChainEndpoints(ls: seq<Line>)
    requires ClosedChain(ls)
    ensures Endpoints(ls) == multiset(Starts(ls)) + multiset(Starts(ls))
  {
    ClosedChainBalanced(ls);
  }

  /** Drawing one line the other way round does not change which points are endpoints. */
  lemma ReversingKeepsEndpoints(ls: seq<Line>, i: nat)
    requires i < |ls|
    ensures Endpoints(ls[i := Reversed(ls[i])]) == Endpoints(ls)
  {
    var ls' := ls[i := Reversed(ls[i])];
    var s, e, s', e' := Starts(ls), Ends(ls), Starts(ls'), Ends(ls');
    assert s' == s[i := e[i]];
    assert e' == e[i := s[i]];
    assert s == s[..i] + [s[i]] + s[i + 1..];
    assert e == e[..i] + [e[i]] + e[i + 1..];
    assert s' == s[..i] + [e[i]] + s[i + 1..];
    assert e' == e[..i] + [s[i]] + e[i + 1..];
  }
}
