/** The clock-hand stage: keep the lines that start near the pivot, rank
    them by length, and read the time from the angles of the two longest. */
module HandDetection {
  import opened Outcomes
  import opened Geometry
  import opened LengthSort
  import opened TimeText

  /** Default `max_distance_from_center` of `filter_lines_by_center`. */
  const MaxDistanceFromCenter: nat := 30

  /** `hypot(p - c) < r`, compared on squared distances. */
  predicate WithinRadius(p: Point, c: Point, r: nat)
  {
    SqDist(p, c) < r * r
  }

  /** A line is a hand candidate when either endpoint is strictly within
      `r` pixels of the center. */
  predicate PassesNearCenter(s: Segment, c: Point, r: nat)
  {
    WithinRadius(s.Start(), c, r) || WithinRadius(s.End(), c, r)
  }

  /** `filter_lines_by_center`: the loop appends each passing line in turn. */
  function FilterLinesByCenter(lines: seq<Segment>, c: Point, r: nat): (kept: seq<Segment>)
    ensures |kept| <= |lines|
    ensures forall l :: l in kept <==> l in lines && PassesNearCenter(l, c, r)
  {
    if |lines| == 0 then []
    else
      var last := lines[|lines| - 1];
      var prefix := lines[..|lines| - 1];
      assert lines == prefix + [last];
      var keptBefore := FilterLinesByCenter(prefix, c, r);
      if PassesNearCenter(last, c, r) then keptBefore + [last] else keptBefore
  }

  /** `idx` picks `sub` out of `s` at strictly increasing positions. */
  ghost predicate SelectedAt(idx: seq<nat>, sub: seq<Segment>, s: seq<Segment>)
  {
    && |idx| == |sub|
    && (forall k :: 0 <= k < |idx| ==> idx[k] < |s| && s[idx[k]] == sub[k])
    && (forall k, j :: 0 <= k < j < |idx| ==> idx[k] < idx[j])
  }

  /** The filter keeps the passing lines unchanged and in input order, and
      drops every other position. */
  lemma {:induction false} FilterKeepsOrder(lines: seq<Segment>, c: Point, r: nat)
    returns (idx: seq<nat>)
    ensures SelectedAt(idx, FilterLinesByCenter(lines, c, r), lines)
    ensures forall i :: 0 <= i < |lines| ==> (i in idx <==> PassesNearCenter(lines[i], c, r))
  {
    if |lines| == 0 {
      idx := [];
    } else {
      var n := |lines| - 1;
      var prefix := lines[..n];
      var before := FilterKeepsOrder(prefix, c, r);
      if PassesNearCenter(lines[n], c, r) {
        idx := before + [n];
      } else {
        idx := before;
      }
      forall i | 0 <= i < |lines|
        ensures i in idx <==> PassesNearCenter(lines[i], c, r)
      {
        if i < n {
          assert lines[i] == prefix[i];
        }
      }
    }
  }

  /** Filtering a concatenation filters each part. */
  lemma {:induction false} FilterAppend(a: seq<Segment>, b: seq<Segment>, c: Point, r: nat)
    ensures FilterLinesByCenter(a + b, c, r)
         == FilterLinesByCenter(a, c, r) + FilterLinesByCenter(b, c, r)
    decreases |b|
  {
    if |b| == 0 {
      assert a + b == a;
    } else {
      var n := |b| - 1;
      assert (a + b)[..|a + b| - 1] == a + b[..n];
      assert (a + b)[|a + b| - 1] == b[n];
      FilterAppend(a, b[..n], c, r);
    }
  }

  /** Filtering twice keeps the same lines as filtering once. */
  lemma {:induction false} FilterIdempotent(lines: seq<Segment>, c: Point, r: nat)
    ensures FilterLinesByCenter(FilterLinesByCenter(lines, c, r), c, r)
         == FilterLinesByCenter(lines, c, r)
  {
    if |lines| > 0 {
      var n := |lines| - 1;
      var keptBefore := FilterLinesByCenter(lines[..n], c, r);
      FilterIdempotent(lines[..n], c, r);
      if PassesNearCenter(lines[n], c, r) {
        FilterAppend(keptBefore, [lines[n]], c, r);
        assert [lines[n]] == [] + [lines[n]];
      }
    }
  }

  /** The endpoint of `s` used for its angle: the one farther from `c`, with
      `(x1, y1)` on a tie (the source tests `dist1 < dist2`). */
  function FarEndpoint(s: Segment, c: Point): (p: Point)
    ensures p == s.Start() || p == s.End()
    ensures SqDist(p, c) >= SqDist(s.Start(), c) && SqDist(p, c) >= SqDist(s.End(), c)
    ensures SqDist(s.Start(), c) == SqDist(s.End(), c) ==> p == s.Start()
  {
    if SqDist(s.Start(), c) < SqDist(s.End(), c) then s.End() else s.Start()
  }

  /** A hand drawn out from the pivot is read by its other end. */
  lemma PivotEndIsFar(s: Segment, c: Point)
    requires s.Start() == c && s.End() != c
    ensures FarEndpoint(s, c) == s.End()
  {
    SqDistZero(s.Start(), c);
    SqDistZero(s.End(), c);
  }

  /** `(degrees(arctan2(dx, dy)) + 360) % 360` for `dx = x - cx`,
      `dy = cy - y`: the clockwise angle from 12 o'clock of an offset. Left
      abstract except for its range. */
  type AngleFn = f: (int, int) -> real
    | forall dx: int, dy: int :: 0.0 <= f(dx, dy) < 360.0
    witness (dx: int, dy: int) => 0.0

  /** What `arctan2` guarantees about directions: the zero offset gives 0
      (numpy's `arctan2(0, 0)`), the four axes land on 0, 90, 180 and 270
      degrees and each open quadrant between them. */
  ghost predicate ClockwiseFromTwelve(atan: AngleFn)
  {
    && atan(0, 0) == 0.0
    && (forall dy: int :: dy > 0 ==> atan(0, dy) == 0.0)
    && (forall dx: int :: dx > 0 ==> atan(dx, 0) == 90.0)
    && (forall dy: int :: dy < 0 ==> atan(0, dy) == 180.0)
    && (forall dx: int :: dx < 0 ==> atan(dx, 0) == 270.0)
    && (forall dx: int, dy: int :: dx > 0 && dy > 0 ==> 0.0 < atan(dx, dy) < 90.0)
    && (forall dx: int, dy: int :: dx > 0 && dy < 0 ==> 90.0 < atan(dx, dy) < 180.0)
    && (forall dx: int, dy: int :: dx < 0 && dy < 0 ==> 180.0 < atan(dx, dy) < 270.0)
    && (forall dx: int, dy: int :: dx < 0 && dy > 0 ==> 270.0 < atan(dx, dy) < 360.0)
  }

  /** `calculate_line_angle`: the angle of the far endpoint seen from the
      center, with the image y axis turned upward. */
  function CalculateLineAngle(s: Segment, c: Point, atan: AngleFn): (a: real)
    ensures 0.0 <= a < 360.0
  {
    var p := FarEndpoint(s, c);
    atan(p.x - c.x, c.y - p.y)
  }

  /** Where the far end lies relative to the center, in image coordinates
      (y grows downward), decides the angle: the center itself and straight
      up are 0, right 90, down
      180, left 270, and each open quadrant lands strictly between its two
      axes, clockwise. */
  lemma LineAngleClockwiseFromUp(s: Segment, c: Point, atan: AngleFn)
    requires ClockwiseFromTwelve(atan)
    ensures var p, a := FarEndpoint(s, c), CalculateLineAngle(s, c, atan);
            && (p == c ==> a == 0.0)
            && (p.x == c.x && p.y < c.y ==> a == 0.0)
            && (p.x > c.x && p.y == c.y ==> a == 90.0)
            && (p.x == c.x && p.y > c.y ==> a == 180.0)
            && (p.x < c.x && p.y == c.y ==> a == 270.0)
    ensures var p, a := FarEndpoint(s, c), CalculateLineAngle(s, c, atan);
            && (p.x > c.x && p.y < c.y ==> 0.0 < a < 90.0)
            && (p.x > c.x && p.y > c.y ==> 90.0 < a < 180.0)
            && (p.x < c.x && p.y > c.y ==> 180.0 < a < 270.0)
            && (p.x < c.x && p.y < c.y ==> 270.0 < a < 360.0)
  {
    var p := FarEndpoint(s, c);
    assert CalculateLineAngle(s, c, atan) == atan(p.x - c.x, c.y - p.y);
  }

  /** `(u - v)^2 <= 2 u^2 + 2 v^2`, from `(u - v)^2 + (u + v)^2 = 2 u^2 + 2 v^2`. */
  lemma SquareOfDifference(u: int, v: int)
    ensures Square(u - v) <= 2 * Square(u) + 2 * Square(v)
  {
    assert (u - v) * (u - v) + (u + v) * (u + v) == 2 * (u * u) + 2 * (v * v);
  }

  /** A line at least `2 r` long that passes within `r` of the center has one
      endpoint strictly farther out than the other. The line detector only
      returns lines of at least 80 pixels (`min_line_length`), which is more
      than twice the 30-pixel filter radius, so every hand candidate has a
      unique far endpoint. */
  lemma FarEndpointIsStrict(s: Segment, c: Point, r: nat)
    requires PassesNearCenter(s, c, r)
    requires SqLength(s) >= 4 * r * r
    ensures SqDist(s.Start(), c) != SqDist(s.End(), c)
  {
    var ux, uy := s.x1 - c.x, s.y1 - c.y;
    var vx, vy := s.x2 - c.x, s.y2 - c.y;
    assert s.x1 - s.x2 == ux - vx && s.y1 - s.y2 == uy - vy;
    SquareOfDifference(ux, vx);
    SquareOfDifference(uy, vy);
    var d1, d2, rr := SqDist(s.Start(), c), SqDist(s.End(), c), r * r;
    assert SqLength(s) <= 2 * d1 + 2 * d2;
    assert 4 * r * r == 4 * rr;
    // with equal distances both endpoints would be within `r`, making the
    // line shorter than `2 r`
    assert d1 < rr || d2 < rr;
  }

  /** Hence the angle of such a line does not depend on the order in which
      the detector listed its endpoints. */
  lemma LineAngleIgnoresEndpointOrder(s: Segment, c: Point, r: nat, atan: AngleFn)
    requires PassesNearCenter(s, c, r)
    requires SqLength(s) >= 4 * r * r
    ensures CalculateLineAngle(s.Reversed(), c, atan) == CalculateLineAngle(s, c, atan)
  {
    FarEndpointIsStrict(s, c, r);
  }

  /** On a tie the listed order decides: a short line centred on the pivot
      reads as 9 o'clock one way round and 3 o'clock the other. */
  lemma TieDependsOnEndpointOrder(atan: AngleFn)
    requires ClockwiseFromTwelve(atan)
    ensures var s := Segment(-10, 0, 10, 0);
            CalculateLineAngle(s, Point(0, 0), atan) == 270.0
            && CalculateLineAngle(s.Reversed(), Point(0, 0), atan) == 90.0
  {
    var s := Segment(-10, 0, 10, 0);
    assert FarEndpoint(s, Point(0, 0)) == Point(-10, 0);
    assert FarEndpoint(s.Reversed(), Point(0, 0)) == Point(10, 0);
  }

  /** `calculate_lines_length`: one `(line, length)` pair per line, in order. */
  function CalculateLinesLength(lines: seq<Segment>): (ms: seq<Marker>)
    ensures |ms| == |lines|
    ensures forall i :: 0 <= i < |ms| ==> ms[i].line == lines[i] && ms[i].length == SqLength(lines[i])
  {
    if |lines| == 0 then []
    else
      var last := lines[|lines| - 1];
      CalculateLinesLength(lines[..|lines| - 1]) + [Marker(last, SqLength(last))]
  }

  /** `(hour_hand, minute_hand)`. */
  datatype HandPair = HandPair(hour: Segment, minute: Segment)

  /** Every ranked entry is a filtered line paired with its own length. */
  lemma RankedEntriesAreLines(f: seq<Segment>)
    ensures var ranked := SortDescending(CalculateLinesLength(f));
            forall i :: 0 <= i < |ranked| ==> ranked[i].line in f && ranked[i].length == SqLength(ranked[i].line)
  {
    var ms := CalculateLinesLength(f);
    var ranked := SortDescending(ms);
    forall i | 0 <= i < |ranked|
      ensures ranked[i].line in f && ranked[i].length == SqLength(ranked[i].line)
    {
      assert ranked[i] in multiset(ms);
      var j :| 0 <= j < |ms| && ms[j] == ranked[i];
    }
  }

  /** The first ranked entry is at least as long as every filtered line. */
  lemma RankedFirstIsLongest(f: seq<Segment>)
    requires |f| > 0
    ensures var ranked := SortDescending(CalculateLinesLength(f));
            forall l :: l in f ==> SqLength(l) <= ranked[0].length
  {
    var ms := CalculateLinesLength(f);
    SortedHeadIsLongest(ms);
    forall l | l in f
      ensures SqLength(l) <= SortDescending(ms)[0].length
    {
      var j :| 0 <= j < |f| && f[j] == l;
      assert ms[j].length == SqLength(l);
    }
  }

  /** `identify_hour_and_minute_hands`: `(None, None)` when no line passes
      the filter, `IndexError` when exactly one does (the source reads
      `markers_lengths[1]` without a length check), otherwise the second
      and first entries of the longest-first ranking. */
  function IdentifyHourAndMinuteHands(lines: seq<Segment>, c: Point): (r: Attempt<Option<HandPair>>)
    ensures var f := FilterLinesByCenter(lines, c, MaxDistanceFromCenter);
            && (r == Returned(None) <==> |f| == 0)
            && (r == Raised(IndexError) <==> |f| == 1)
            && (r.Returned? && r.value.Some? <==> |f| >= 2)
            && (r.Returned? && r.value.Some? ==>
                  var h := r.value.value;
                  && h.hour in f && h.minute in f
                  && SqLength(h.hour) <= SqLength(h.minute)
                  && forall l :: l in f ==> SqLength(l) <= SqLength(h.minute))
  {
    var f := FilterLinesByCenter(lines, c, MaxDistanceFromCenter);
    if |f| == 0 then Returned(None)
    else
      var ranked := SortDescending(CalculateLinesLength(f));
      RankedEntriesAreLines(f);
      RankedFirstIsLongest(f);
      if |ranked| < 2 then Raised(IndexError)
      else Returned(Some(HandPair(ranked[1].line, ranked[0].line)))
  }

  /** Which lines win: the minute hand is the first longest filtered line and
      the hour hand is the first longest of the filtered lines left after
      removing it. Equal lengths go to the earlier line because the sort is
      stable. */
  lemma HandsAreFirstAndSecondLongest(lines: seq<Segment>, c: Point)
    requires |FilterLinesByCenter(lines, c, MaxDistanceFromCenter)| >= 2
    ensures var ms := CalculateLinesLength(FilterLinesByCenter(lines, c, MaxDistanceFromCenter));
            var i0 := FirstLongest(ms);
            var rest := RemoveAt(ms, i0);
            IdentifyHourAndMinuteHands(lines, c)
            == Returned(Some(HandPair(rest[FirstLongest(rest)].line, ms[i0].line)))
  {
    var ms := CalculateLinesLength(FilterLinesByCenter(lines, c, MaxDistanceFromCenter));
    SortedFirstTwo(ms);
  }

  /** Nothing merges near-identical lines: a hand detected twice is both the
      hour and the minute hand. */
  lemma DuplicateLineFillsBothHands(l: Segment, c: Point)
    requires PassesNearCenter(l, c, MaxDistanceFromCenter)
    ensures IdentifyHourAndMinuteHands([l, l], c) == Returned(Some(HandPair(l, l)))
  {
    assert [l, l][..1] == [l];
    assert [l][..0] == [];
    assert FilterLinesByCenter([l, l], c, MaxDistanceFromCenter) == [l, l];
  }

  /** `int((angle / 360) * 12) % 12`: the 30-degree sector holding `angle`.
      Over the reals the `% 12` never changes the value; in the source it
      only catches a float product that rounds up to 12.0. */
  function HourOfAngle(angle: real): (h: nat)
    requires 0.0 <= angle < 360.0
    ensures h < 12
    ensures 30.0 * h as real <= angle < 30.0 * (h + 1) as real
  {
    ((angle / 360.0) * 12.0).Floor % 12
  }

  /** `int((angle / 360) * 60) % 60`: the 6-degree sector holding `angle`. */
  function MinuteOfAngle(angle: real): (m: nat)
    requires 0.0 <= angle < 360.0
    ensures m < 60
    ensures 6.0 * m as real <= angle < 6.0 * (m + 1) as real
  {
    ((angle / 360.0) * 60.0).Floor % 60
  }

  /** `read_time_from_hands`: always a five-character `"HH:MM"` whose hour
      is the 30-degree sector of the hour hand and whose minute is the
      6-degree sector of the minute hand. */
  function ReadTimeFromHands(hourLine: Segment, minuteLine: Segment, c: Point, atan: AngleFn): (t: string)
    ensures |t| == 5 && ParseClock(t).Some?
    ensures var rd := ParseClock(t).value;
            var ha := CalculateLineAngle(hourLine, c, atan);
            var ma := CalculateLineAngle(minuteLine, c, atan);
            && rd.hour < 12 && 30.0 * rd.hour as real <= ha < 30.0 * (rd.hour + 1) as real
            && rd.minute < 60 && 6.0 * rd.minute as real <= ma < 6.0 * (rd.minute + 1) as real
  {
    var hour := HourOfAngle(CalculateLineAngle(hourLine, c, atan));
    var minute := MinuteOfAngle(CalculateLineAngle(minuteLine, c, atan));
    ParseFormatRoundTrip(hour, minute);
    FormatClock(hour, minute)
  }

  /** An hour hand whose far end lies right of and below the pivot reads
      3, 4 or 5. */
  lemma LowerRightHourHand(s: Segment, c: Point, atan: AngleFn)
    requires ClockwiseFromTwelve(atan)
    requires FarEndpoint(s, c).x > c.x && FarEndpoint(s, c).y > c.y
    ensures 3 <= HourOfAngle(CalculateLineAngle(s, c, atan)) <= 5
  {
    LineAngleClockwiseFromUp(s, c, atan);
  }
}
