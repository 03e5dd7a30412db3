/** Concrete readings worked through the model. */
module ClockExamples {
  import opened Geometry
  import opened HandDetection
  import opened TimeText
  import opened Outcomes
  import opened BlobDetection
  import opened Pipeline

  lemma HalfPastThreeAngles(atan: AngleFn)
    requires ClockwiseFromTwelve(atan)
    ensures CalculateLineAngle(Segment(0, 0, 50, 0), Point(0, 0), atan) == 90.0
    ensures CalculateLineAngle(Segment(0, 0, 0, 100), Point(0, 0), atan) == 180.0
  {
    PivotEndIsFar(Segment(0, 0, 50, 0), Point(0, 0));
    PivotEndIsFar(Segment(0, 0, 0, 100), Point(0, 0));
    assert atan(50, 0) == 90.0;
    assert atan(0, -100) == 180.0;
  }

  lemma HalfPastThreeSectors()
    ensures HourOfAngle(90.0) == 3 && MinuteOfAngle(180.0) == 30
  {
  }

  lemma HalfPastThreeText()
    ensures FormatClock(3, 30) == "03:30"
  {
  }

  /** Hour hand pointing at 3 o'clock and minute hand at 6 o'clock read as
      `"03:30"`. */
  lemma ReadsHalfPastThree(atan: AngleFn)
    requires ClockwiseFromTwelve(atan)
    ensures ReadTimeFromHands(Segment(0, 0, 50, 0), Segment(0, 0, 0, 100), Point(0, 0), atan) == "03:30"
  {
    HalfPastThreeAngles(atan);
    HalfPastThreeSectors();
    HalfPastThreeText();
  }


  /** A clock face centred at (100, 100): one blob on the pivot, a line of
      length 80 pointing at 12 and one of length 60 pointing at 3. */
  function ThreeOClockImage(lines: seq<Segment>): Collaborators
  {
    Collaborators(true, true, true, Some(Circle(100, 100, 80)),
                  [Keypoint(100.0, 100.0, 30.0)], Some(lines))
  }

  const MinuteLine: Segment := Segment(100, 100, 100, 20)
  const HourLine: Segment := Segment(100, 100, 160, 100)

  lemma ThreeOClockCenter(lines: seq<Segment>)
    ensures UpstreamReady(ThreeOClockImage(lines)) <==> |lines| > 0
    ensures RefinedCenter(ThreeOClockImage(lines)) == Point(100, 100)
  {
    assert NearestKeypoint([Keypoint(100.0, 100.0, 30.0)], Circle(100, 100, 80)) == 0;
  }

  lemma ThreeOClockCandidates()
    ensures FilterLinesByCenter([MinuteLine, HourLine], Point(100, 100), MaxDistanceFromCenter)
            == [MinuteLine, HourLine]
    ensures FilterLinesByCenter([MinuteLine], Point(100, 100), MaxDistanceFromCenter) == [MinuteLine]
  {
    assert [MinuteLine, HourLine][..1] == [MinuteLine];
    assert [MinuteLine][..0] == [];
    assert SqDist(MinuteLine.Start(), Point(100, 100)) == 0;
    assert SqDist(HourLine.Start(), Point(100, 100)) == 0;
  }

  lemma ThreeOClockLengths()
    ensures SqLength(MinuteLine) == 6400 && SqLength(HourLine) == 3600
  {
  }

  lemma ThreeOClockMarkers()
    ensures CalculateLinesLength([MinuteLine, HourLine])
            == [LengthSort.Marker(MinuteLine, 6400), LengthSort.Marker(HourLine, 3600)]
  {
    ThreeOClockLengths();
    assert [MinuteLine, HourLine][..1] == [MinuteLine];
  }

  lemma ThreeOClockRanking()
    ensures var ms := [LengthSort.Marker(MinuteLine, 6400), LengthSort.Marker(HourLine, 3600)];
            && LengthSort.FirstLongest(ms) == 0
            && LengthSort.RemoveAt(ms, 0) == [LengthSort.Marker(HourLine, 3600)]
            && LengthSort.FirstLongest(LengthSort.RemoveAt(ms, 0)) == 0
  {
  }

  lemma ThreeOClockHands()
    ensures IdentifyHourAndMinuteHands([MinuteLine, HourLine], Point(100, 100))
            == Returned(Some(HandPair(HourLine, MinuteLine)))
  {
    ThreeOClockCandidates();
    ThreeOClockMarkers();
    ThreeOClockRanking();
    HandsAreFirstAndSecondLongest([MinuteLine, HourLine], Point(100, 100));
  }

  lemma ThreeOClockAngles(atan: AngleFn)
    requires ClockwiseFromTwelve(atan)
    ensures CalculateLineAngle(MinuteLine, Point(100, 100), atan) == 0.0
    ensures CalculateLineAngle(HourLine, Point(100, 100), atan) == 90.0
  {
    PivotEndIsFar(MinuteLine, Point(100, 100));
    PivotEndIsFar(HourLine, Point(100, 100));
    assert atan(0, 80) == 0.0;
    assert atan(60, 0) == 90.0;
  }

  lemma ThreeOClockText()
    ensures HourOfAngle(90.0) == 3 && MinuteOfAngle(0.0) == 0
    ensures FormatClock(3, 0) == "03:00"
  {
  }

  lemma ThreeOClockReading(atan: AngleFn)
    requires ClockwiseFromTwelve(atan)
    ensures ReadTimeFromHands(HourLine, MinuteLine, Point(100, 100), atan) == "03:00"
  {
    ThreeOClockAngles(atan);
    ThreeOClockText();
  }

  /** The two-hand scenario reads "03:00". */
  lemma ReadsThreeOClock(atan: AngleFn)
    requires ClockwiseFromTwelve(atan)
    ensures ReadClockTime(ThreeOClockImage([MinuteLine, HourLine]), atan).outcome == Time("03:00")
  {
    var inp := ThreeOClockImage([MinuteLine, HourLine]);
    ThreeOClockCenter([MinuteLine, HourLine]);
    ThreeOClockCandidates();
    ThreeOClockHands();
    ThreeOClockReading(atan);
    var r := ReadClockTime(inp, atan);
    assert UpstreamReady(inp) && RefinedCenter(inp) == Point(100, 100);
    assert |HandCandidates(inp)| == 2;
    assert r.outcome.Time?;
  }

  /** ... and `main` reports it. */
  lemma ReportsThreeOClock(atan: AngleFn)
    requires ClockwiseFromTwelve(atan)
    ensures MainReport(ReadClockTime(ThreeOClockImage([MinuteLine, HourLine]), atan).outcome)
            == Returned(Report(true, "DETECTED TIME: 03:00"))
  {
    ReadsThreeOClock(atan);
    var r := ReadClockTime(ThreeOClockImage([MinuteLine, HourLine]), atan);
    assert MainReport(r.outcome) == Returned(Report(true, "DETECTED TIME: " + "03:00"));
    BannerText();
  }

  lemma BannerText()
    ensures "DETECTED TIME: " + "03:00" == "DETECTED TIME: 03:00"
  {
  }

  /** With only the minute line the run raises `IndexError` instead of
      falling back to one hand. */
  lemma OneLineRaises(atan: AngleFn)
    ensures ReadClockTime(ThreeOClockImage([MinuteLine]), atan).outcome == Crashed(IndexError)
  {
    ThreeOClockCenter([MinuteLine]);
    ThreeOClockCandidates();
  }
}
