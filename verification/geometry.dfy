/** Integer image geometry: points, line segments and squared distances.

    Image coordinates are pixels with y growing downward. Every distance the
    source compares (`np.hypot`, `np.sqrt`) is replaced by the squared
    Euclidean distance, which orders integer points the same way. */
module Geometry {

  datatype Point = Point(x: int, y: int)

  /** A line `(x1, y1, x2, y2)` as produced by the line detector. */
  datatype Segment = Segment(x1: int, y1: int, x2: int, y2: int) {

    function Start(): Point { Point(x1, y1) }

    function End(): Point { Point(x2, y2) }

    /** The same segment with its endpoints listed the other way round. */
    function Reversed(): (r: Segment)
      ensures r.Start() == End() && r.End() == Start()
    {
      Segment(x2, y2, x1, y1)
    }
  }

  function Square(n: int): nat
  {
    n * n
  }

  /** Squared Euclidean distance between two points. */
  function SqDist(a: Point, b: Point): nat
  {
    Square(a.x - b.x) + Square(a.y - b.y)
  }

  lemma SquareZero(n: int)
    ensures Square(n) == 0 <==> n == 0
  {
    if n < 0 {
      assert Square(n) == (-n) * (-n) >= -n;
    } else if n > 0 {
      assert Square(n) >= n;
    }
  }

  /** Distance zero means the same point. */
  lemma SqDistZero(a: Point, b: Point)
    ensures SqDist(a, b) == 0 <==> a == b
  {
    SquareZero(a.x - b.x);
    SquareZero(a.y - b.y);
  }

  lemma SquareNegate(n: int)
    ensures Square(-n) == Square(n)
  {
  }

  lemma SqDistSymmetric(a: Point, b: Point)
    ensures SqDist(a, b) == SqDist(b, a)
  {
    SquareNegate(a.x - b.x);
    SquareNegate(a.y - b.y);
  }

  /** Squared length of a segment: the squared distance between its ends. */
  function SqLength(s: Segment): nat
  {
    SqDist(s.Start(), s.End())
  }

  /** The length of a line does not depend on the order of its endpoints. */
  lemma SqLengthReversed(s: Segment)
    ensures SqLength(s.Reversed()) == SqLength(s)
  {
    SqDistSymmetric(s.Start(), s.End());
  }
}
