/** Milestone listers: given the segments of a drawn path (in pixels), they
    emit the positions where milestones are shown. The vertex lister emits
    every vertex with its rank, the last one with a negated rank; the middle
    lister emits the middle of every segment long enough. The orientation of
    a segment and its squared length come from helpers outside this model
    and are parameters. The base lister's list of steps is `steps`. */
module Milestones {
  import opened Wrappers
  import opened JavaInt

  /** A milestone position with the orientation of its segment and an
      optional tag: the vertex rank, or none. */
  datatype MilestoneStep = MilestoneStep(x: int, y: int, orientation: real, tag: Option<int>)

  /** A segment as handed to `add`, with the orientation computed for it. */
  datatype Segment = Segment(x0: int, y0: int, x1: int, y1: int, orientation: real)

  // -------------------------------------------------------- vertex lister

  datatype VertexListerState = VertexListerState(
    latestOrientation: real, latestX: int, latestY: int, index: int, steps: seq<MilestoneStep>)

  /** `add`: emits the segment's start with the current rank, which then
      grows by one (as a wrapping `Int`), and remembers the segment's end
      and orientation. */
  function VertexAdd(s: VertexListerState, seg: Segment): (t: VertexListerState)
    ensures t.steps == s.steps + [MilestoneStep(seg.x0, seg.y0, seg.orientation, Some(s.index))]
    ensures t.latestX == seg.x1 && t.latestY == seg.y1 && t.latestOrientation == seg.orientation
    ensures IsInt(s.index) && s.index < INT_MAX ==> t.index == s.index + 1
  {
    VertexListerState(seg.orientation, seg.x1, seg.y1, WrapInt(s.index + 1),
      s.steps + [MilestoneStep(seg.x0, seg.y0, seg.orientation, Some(s.index))])
  }

  /** `end`: emits the latest end point with the negated rank, the mark of
      the last vertex. */
  function VertexEnd(s: VertexListerState): (t: VertexListerState)
    ensures t.steps == s.steps + [MilestoneStep(s.latestX, s.latestY, s.latestOrientation, Some(WrapInt(-s.index)))]
    ensures t.(steps := s.steps) == s
  {
    s.(steps := s.steps + [MilestoneStep(s.latestX, s.latestY, s.latestOrientation, Some(WrapInt(-s.index)))])
  }

  function VertexAddAll(s: VertexListerState, segs: seq<Segment>): VertexListerState
    decreases |segs|
  {
    if |segs| == 0 then s else VertexAddAll(VertexAdd(s, segs[0]), segs[1..])
  }

  /** The steps the vertex lister emits for a path, as an independent
      description: every segment's start ranked 0, 1, ..., and the last
      end ranked -n. With no segment at all, `end` repeats whatever end
      point and orientation were stored before, ranked 0. */
  function ListedVertices(before: VertexListerState, segs: seq<Segment>): (r: seq<MilestoneStep>)
    ensures |r| == |segs| + 1
  {
    var starts := seq(|segs|, i requires 0 <= i < |segs| => MilestoneStep(segs[i].x0, segs[i].y0, segs[i].orientation, Some(i)));
    if |segs| == 0 then [MilestoneStep(before.latestX, before.latestY, before.latestOrientation, Some(0))]
    else
      var last := segs[|segs| - 1];
      starts + [MilestoneStep(last.x1, last.y1, last.orientation, Some(-|segs|))]
  }

  /** Adding segments from rank k appends their starts ranked k, k+1, ...
      and leaves the last segment's end as the latest point. */
  lemma {:induction false} VertexAddAllFrom(s: VertexListerState, segs: seq<Segment>)
    requires 0 <= s.index && s.index + |segs| <= INT_MAX
    ensures var t := VertexAddAll(s, segs);
      t.index == s.index + |segs| &&
      t.steps == s.steps + seq(|segs|, i requires 0 <= i < |segs| => MilestoneStep(segs[i].x0, segs[i].y0, segs[i].orientation, Some(s.index + i))) &&
      (|segs| > 0 ==> t.latestX == segs[|segs| - 1].x1 && t.latestY == segs[|segs| - 1].y1 && t.latestOrientation == segs[|segs| - 1].orientation) &&
      (|segs| == 0 ==> t == s)
    decreases |segs|
  {
    if |segs| > 0 {
      var next := VertexAdd(s, segs[0]);
      VertexAddAllFrom(next, segs[1..]);
      var t := VertexAddAll(next, segs[1..]);
      var tail := seq(|segs| - 1, i requires 0 <= i < |segs| - 1 => MilestoneStep(segs[1..][i].x0, segs[1..][i].y0, segs[1..][i].orientation, Some(next.index + i)));
      var whole := seq(|segs|, i requires 0 <= i < |segs| => MilestoneStep(segs[i].x0, segs[i].y0, segs[i].orientation, Some(s.index + i)));
      assert whole == [whole[0]] + tail;
      if |segs| > 1 {
        assert segs[1..][|segs[1..]| - 1] == segs[|segs| - 1];
      }
    }
  }

  /** `init`, then `add` for each segment, then `end` emits exactly the
      listed vertices: ranks 0, 1, ..., n-1 and then -n (0 with no segment). */
  lemma VertexListing(s: VertexListerState, segs: seq<Segment>)
    requires |segs| <= INT_MAX
    ensures VertexEnd(VertexAddAll(s.(index := 0), segs)).steps == s.steps + ListedVertices(s, segs)
  {
    VertexAddAllFrom(s.(index := 0), segs);
  }

  class MilestoneVertexLister {
    var latestOrientation: real
    var latestX: int
    var latestY: int
    var index: int
    var steps: seq<MilestoneStep>

    function State(): VertexListerState
      reads this
    {
      VertexListerState(latestOrientation, latestX, latestY, index, steps)
    }

    constructor ()
      ensures State() == VertexListerState(0.0, 0, 0, 0, [])
    {
      latestOrientation := 0.0;
      latestX := 0;
      latestY := 0;
      index := 0;
      steps := [];
    }

    /** `init`: the rank is reset to 0 (the base class's `init` is not
        part of this model). */
    method Init()
      modifies this`index
      ensures State() == old(State()).(index := 0)
    {
      index := 0;
    }

    method Add(x0: int, y0: int, x1: int, y1: int, orientation: real)
      modifies this
      ensures State() == VertexAdd(old(State()), Segment(x0, y0, x1, y1, orientation))
    {
      latestOrientation := orientation;
      var rank := index;
      index := WrapInt(index + 1);
      InnerAdd(x0, y0, rank);
      latestX := x1;
      latestY := y1;
    }

    method End()
      modifies this`steps
      ensures State() == VertexEnd(old(State()))
    {
      InnerAdd(latestX, latestY, WrapInt(-index));
    }

    method InnerAdd(x: int, y: int, rank: int)
      modifies this`steps
      ensures steps == old(steps) + [MilestoneStep(x, y, latestOrientation, Some(rank))]
    {
      steps := steps + [MilestoneStep(x, y, latestOrientation, Some(rank))];
    }
  }

  // -------------------------------------------------------- middle lister

  /** The squared pixel length of a segment, exactly. */
  function SquaredDistance(x0: int, y0: int, x1: int, y1: int): (d: int)
    ensures d >= 0
  {
    (x1 - x0) * (x1 - x0) + (y1 - y0) * (y1 - y0)
  }

  /** `(a + b) / 2` on `Long`s: the sum wraps, the division truncates. */
  function Midpoint(a: int, b: int): int
  {
    TruncDiv(WrapLong(a + b), 2)
  }

  /** The midpoint does not depend on the order of the endpoints. */
  lemma MidpointSymmetric(a: int, b: int)
    ensures Midpoint(a, b) == Midpoint(b, a)
  {
  }

  /** When the sum fits in a `Long`, the midpoint lies between the two
      endpoints. */
  lemma MidpointBetween(a: int, b: int)
    requires IsLong(a + b)
    ensures a <= b ==> a <= Midpoint(a, b) <= b
    ensures b <= a ==> b <= Midpoint(a, b) <= a
    ensures a + b - 1 <= 2 * Midpoint(a, b) <= a + b + 1
  {
  }

  /** Halving truncates toward zero: the midpoint of -3 and 0 is -1 (floor
      division would give -2). */
  lemma MidpointRoundsTowardZero()
    ensures Midpoint(-3, 0) == -1 && Midpoint(3, 0) == 1
  {
  }

  /** Past the `Long` range the sum wraps and the midpoint leaves the
      segment: the midpoint of `Long.MAX_VALUE` with itself is -1. */
  lemma MidpointWrapsPastLongRange()
    ensures Midpoint(LONG_MAX, LONG_MAX) == -1
  {
  }

  /** What the middle lister emits for one segment: nothing for a segment
      no longer than the minimum distance, otherwise one untagged step at
      its middle. */
  function MiddleSteps(minimumSquaredPixelDistance: real, seg: Segment): (r: seq<MilestoneStep>)
    ensures |r| <= 1
    ensures |r| == 0 <==> SquaredDistance(seg.x0, seg.y0, seg.x1, seg.y1) as real <= minimumSquaredPixelDistance
    ensures |r| == 1 ==> r[0] == MilestoneStep(Midpoint(seg.x0, seg.x1), Midpoint(seg.y0, seg.y1), seg.orientation, None)
  {
    if SquaredDistance(seg.x0, seg.y0, seg.x1, seg.y1) as real <= minimumSquaredPixelDistance then []
    else [MilestoneStep(Midpoint(seg.x0, seg.x1), Midpoint(seg.y0, seg.y1), seg.orientation, None)]
  }

  /** The threshold is the square of the minimum distance and is compared
      with the squared length, so a segment whose length is `length` gets
      no middle milestone exactly when `length` is at most the minimum
      distance. */
  lemma ThresholdIsSquare(minimumPixelDistance: real, seg: Segment, length: real)
    requires minimumPixelDistance >= 0.0 && length >= 0.0
    requires length * length == SquaredDistance(seg.x0, seg.y0, seg.x1, seg.y1) as real
    ensures |MiddleSteps(minimumPixelDistance * minimumPixelDistance, seg)| == 0 <==> length <= minimumPixelDistance
  {
    SquareMonotone(length, minimumPixelDistance);
  }

  /** On non-negative reals, squaring keeps the order both ways. */
  lemma SquareMonotone(a: real, b: real)
    requires a >= 0.0 && b >= 0.0
    ensures a * a <= b * b <==> a <= b
  {
    var e := if a <= b then b - a else a - b;
    ProductSign(a + b, e);
    if a <= b {
      assert b * b - a * a == (a + b) * e;
    } else {
      assert a * a - b * b == (a + b) * e;
    }
  }

  /** The product of a non-negative and a positive real is non-negative,
      and positive when the first factor is positive. */
  lemma ProductSign(x: real, y: real)
    requires x >= 0.0 && y >= 0.0
    ensures x * y >= 0.0
    ensures x > 0.0 && y > 0.0 ==> x * y > 0.0
  {
  }

  /** Reversing a segment moves no milestone: the same step is emitted,
      apart from the orientation the caller passes for the reversed
      direction. */
  lemma MiddleStepsReversed(threshold: real, seg: Segment, reversedOrientation: real)
    ensures var rev := Segment(seg.x1, seg.y1, seg.x0, seg.y0, reversedOrientation);
      |MiddleSteps(threshold, rev)| == |MiddleSteps(threshold, seg)| &&
      (|MiddleSteps(threshold, seg)| == 1 ==>
        MiddleSteps(threshold, rev)[0] == MiddleSteps(threshold, seg)[0].(orientation := reversedOrientation))
  {
    assert SquaredDistance(seg.x1, seg.y1, seg.x0, seg.y0) == SquaredDistance(seg.x0, seg.y0, seg.x1, seg.y1);
  }

  class MilestoneMiddleLister {
    const minimumSquaredPixelDistance: real
    var steps: seq<MilestoneStep>

    constructor (minimumPixelDistance: real)
      ensures minimumSquaredPixelDistance == minimumPixelDistance * minimumPixelDistance && steps == []
    {
      minimumSquaredPixelDistance := minimumPixelDistance * minimumPixelDistance;
      steps := [];
    }

    method Add(x0: int, y0: int, x1: int, y1: int, orientation: real)
      modifies this`steps
      ensures steps == old(steps) + MiddleSteps(minimumSquaredPixelDistance, Segment(x0, y0, x1, y1, orientation))
    {
      if SquaredDistance(x0, y0, x1, y1) as real <= minimumSquaredPixelDistance {
        return;
      }
      var centerX := TruncDiv(WrapLong(x0 + x1), 2);
      var centerY := TruncDiv(WrapLong(y0 + y1), 2);
      steps := steps + [MilestoneStep(centerX, centerY, orientation, None)];
    }
  }
}
