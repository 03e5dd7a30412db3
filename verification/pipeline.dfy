/** `read_clock_time` and `main`: a fixed chain of stages, each of which
    either hands its result to the next or ends the run.

    The image-processing collaborators (image loading, blurring, Canny,
    the Hough transforms, the blob detector) are not modelled; what they
    returned for one image is an input, `Collaborators`. */
module Pipeline {
  import opened Outcomes
  import opened Geometry
  import opened BlobDetection
  import opened HandDetection

  /** The numbered steps of `read_clock_time`, and the final check of the
      estimated time. */
  datatype Stage =
    | Preprocessing
    | EdgeDetection
    | FaceDetection
    | CenterDetection
    | LineDetection
    | HandIdentification
    | TimeEstimation

  const StageOrder: seq<Stage> :=
    [Preprocessing, EdgeDetection, FaceDetection, CenterDetection,
     LineDetection, HandIdentification, TimeEstimation]

  /** What the collaborators produced for one image. */
  datatype Collaborators = Collaborators(
    imageFound: bool,             // `cv2.imread` gave an image
    blurredImagesPresent: bool,   // grayscale and black-and-white images are not None
    edgesPresent: bool,           // `cv2.Canny` gave an edge map
    circle: Option<Circle>,       // `detect_clock_circle`
    keypoints: seq<Keypoint>,     // the blob detector's keypoints
    lines: Option<seq<Segment>>)  // `detect_lines_hough`

  /** What `read_clock_time` ends with: a time string, `None` after a logged
      failure of the named stage, or an exception it lets escape. */
  datatype Outcome =
    | Time(text: string)
    | Failed(stage: Stage)
    | Crashed(exception: Exception)

  /** An outcome together with the stages that ran, in the order they ran. */
  datatype Run = Run(stagesRun: seq<Stage>, outcome: Outcome)

  /** `r` is the rest of a run entered at stage number `i`: its stages are the
      next ones of the fixed order, a failure is reported by the last stage
      that ran, and a time only after every stage ran. */
  predicate RunsInOrderFrom(r: Run, i: nat)
  {
    && i < |StageOrder|
    && 1 <= |r.stagesRun| <= |StageOrder| - i
    && r.stagesRun == StageOrder[i..i + |r.stagesRun|]
    && (r.outcome.Failed? ==> r.stagesRun[|r.stagesRun| - 1] == r.outcome.stage)
    && (r.outcome.Time? ==> i + |r.stagesRun| == |StageOrder|)
  }

  /** The run ends at `stage` with `outcome`. */
  function Stop(stage: Stage, outcome: Outcome): Run
  {
    Run([stage], outcome)
  }

  /** `stage` succeeded and the run continues with `rest`. */
  function Continue(stage: Stage, rest: Run): Run
  {
    Run([stage] + rest.stagesRun, rest.outcome)
  }

  /** Step 6: `read_time_from_hands`, then `if estimated_time:`. */
  function EstimateTime(hands: HandPair, center: Point, atan: AngleFn): (r: Run)
    ensures RunsInOrderFrom(r, 6)
    ensures r.outcome == Time(ReadTimeFromHands(hands.hour, hands.minute, center, atan))
  {
    var estimated := ReadTimeFromHands(hands.hour, hands.minute, center, atan);
    if |estimated| > 0 then Stop(TimeEstimation, Time(estimated))
    else Stop(TimeEstimation, Failed(TimeEstimation))
  }

  /** Step 5, second half: `identify_hour_and_minute_hands`. */
  function IdentifyHands(lines: seq<Segment>, center: Point, atan: AngleFn): (r: Run)
    ensures RunsInOrderFrom(r, 5)
    ensures var f := FilterLinesByCenter(lines, center, MaxDistanceFromCenter);
            && (r.outcome == Failed(HandIdentification) <==> |f| == 0)
            && (r.outcome == Crashed(IndexError) <==> |f| == 1)
            && (r.outcome.Time? <==> |f| >= 2)
            && (r.outcome.Failed? ==> r.outcome.stage == HandIdentification)
            && (r.outcome.Crashed? ==> r.outcome.exception == IndexError)
    ensures r.outcome.Time? ==>
              var hands := IdentifyHourAndMinuteHands(lines, center).value.value;
              r.outcome.text == ReadTimeFromHands(hands.hour, hands.minute, center, atan)
  {
    match IdentifyHourAndMinuteHands(lines, center)
    case Raised(e) => Stop(HandIdentification, Crashed(e))
    case Returned(None) => Stop(HandIdentification, Failed(HandIdentification))
    case Returned(Some(hands)) => Continue(HandIdentification, EstimateTime(hands, center, atan))
  }

  /** Step 5, first half: no lines, or an empty list of lines, ends the run. */
  function DetectLines(inp: Collaborators, center: Point, atan: AngleFn): (r: Run)
    ensures RunsInOrderFrom(r, 4)
    ensures inp.lines.None? || |inp.lines.value| == 0 ==> r.outcome == Failed(LineDetection)
    ensures inp.lines.Some? && |inp.lines.value| > 0
            ==> r.outcome == IdentifyHands(inp.lines.value, center, atan).outcome
  {
    if inp.lines.None? || |inp.lines.value| == 0 then Stop(LineDetection, Failed(LineDetection))
    else Continue(LineDetection, IdentifyHands(inp.lines.value, center, atan))
  }

  /** Step 4: the blob nearest the circle's center becomes the clock center,
      its coordinates truncated to integers. */
  function RefineCenter(inp: Collaborators, circle: Circle, atan: AngleFn): (r: Run)
    ensures RunsInOrderFrom(r, 3)
    ensures |inp.keypoints| == 0 ==> r.outcome == Failed(CenterDetection)
    ensures |inp.keypoints| > 0 ==>
              var blob := DetectClockCenterBlob(inp.keypoints, circle).value;
              r.outcome == DetectLines(inp, Point(blob.x, blob.y), atan).outcome
  {
    match DetectClockCenterBlob(inp.keypoints, circle)
    case None => Stop(CenterDetection, Failed(CenterDetection))
    case Some(blob) => Continue(CenterDetection, DetectLines(inp, Point(blob.x, blob.y), atan))
  }

  /** Step 3: the Hough circle. */
  function DetectFace(inp: Collaborators, atan: AngleFn): (r: Run)
    ensures RunsInOrderFrom(r, 2)
    ensures inp.circle.None? ==> r.outcome == Failed(FaceDetection)
    ensures inp.circle.Some? ==> r.outcome == RefineCenter(inp, inp.circle.value, atan).outcome
  {
    match inp.circle
    case None => Stop(FaceDetection, Failed(FaceDetection))
    case Some(circle) => Continue(FaceDetection, RefineCenter(inp, circle, atan))
  }

  /** Step 2: Canny edges. */
  function DetectEdges(inp: Collaborators, atan: AngleFn): (r: Run)
    ensures RunsInOrderFrom(r, 1)
    ensures !inp.edgesPresent ==> r.outcome == Failed(EdgeDetection)
    ensures inp.edgesPresent ==> r.outcome == DetectFace(inp, atan).outcome
  {
    if !inp.edgesPresent then Stop(EdgeDetection, Failed(EdgeDetection))
    else Continue(EdgeDetection, DetectFace(inp, atan))
  }

  /** Stages 1 to 5 all succeed: everything up to the hand stage is there. */
  predicate UpstreamReady(inp: Collaborators)
  {
    && inp.imageFound && inp.blurredImagesPresent && inp.edgesPresent
    && inp.circle.Some? && |inp.keypoints| > 0
    && inp.lines.Some? && |inp.lines.value| > 0
  }

  /** The blob-refined center the hand stage works with. */
  function RefinedCenter(inp: Collaborators): Point
    requires inp.circle.Some? && |inp.keypoints| > 0
  {
    var blob := DetectClockCenterBlob(inp.keypoints, inp.circle.value).value;
    Point(blob.x, blob.y)
  }

  /** The lines that pass the center filter around the refined center. */
  function HandCandidates(inp: Collaborators): seq<Segment>
    requires UpstreamReady(inp)
  {
    FilterLinesByCenter(inp.lines.value, RefinedCenter(inp), MaxDistanceFromCenter)
  }

  /** `read_clock_time`. Stages run in the fixed order and the first miss
      ends the run; a missing image raises instead of returning; two or more
      hand candidates always yield a time, read at the blob-refined center,
      so the final "Time estimation failed" branch is never taken. */
  function ReadClockTime(inp: Collaborators, atan: AngleFn): (r: Run)
    ensures RunsInOrderFrom(r, 0)
    ensures r.outcome == Crashed(FileNotFoundError) <==> !inp.imageFound
    ensures r.outcome.Time? <==> UpstreamReady(inp) && |HandCandidates(inp)| >= 2
    ensures r.outcome != Failed(TimeEstimation)
    ensures r.outcome.Time? ==>
              var hands := IdentifyHourAndMinuteHands(inp.lines.value, RefinedCenter(inp)).value.value;
              r.outcome.text == ReadTimeFromHands(hands.hour, hands.minute, RefinedCenter(inp), atan)
  {
    if !inp.imageFound then Stop(Preprocessing, Crashed(FileNotFoundError))
    else if !inp.blurredImagesPresent then Stop(Preprocessing, Failed(Preprocessing))
    else
      ReachesHandStage(inp, atan);
      Continue(Preprocessing, DetectEdges(inp, atan))
  }

  /** After preprocessing, the run either misses in steps 2 to 5 or ends as
      the hand stage ends at the refined center. */
  lemma ReachesHandStage(inp: Collaborators, atan: AngleFn)
    requires inp.imageFound && inp.blurredImagesPresent
    ensures UpstreamReady(inp) ==>
              DetectEdges(inp, atan).outcome == IdentifyHands(inp.lines.value, RefinedCenter(inp), atan).outcome
    ensures !UpstreamReady(inp) ==>
              DetectEdges(inp, atan).outcome.Failed?
              && DetectEdges(inp, atan).outcome.stage in {EdgeDetection, FaceDetection, CenterDetection, LineDetection}
  {
  }

  /** The first three stages fail exactly when every earlier stage succeeded
      and their own collaborator came back empty. */
  lemma EarlyStageFailsOnMiss(inp: Collaborators, atan: AngleFn)
    ensures var r := ReadClockTime(inp, atan);
            && (r.outcome == Failed(Preprocessing) <==> inp.imageFound && !inp.blurredImagesPresent)
            && (r.outcome == Failed(EdgeDetection)
                <==> inp.imageFound && inp.blurredImagesPresent && !inp.edgesPresent)
            && (r.outcome == Failed(FaceDetection)
                <==> inp.imageFound && inp.blurredImagesPresent && inp.edgesPresent && inp.circle.None?)
  {
  }

  /** Likewise for the blob and line stages. */
  lemma LateStageFailsOnMiss(inp: Collaborators, atan: AngleFn)
    ensures var r := ReadClockTime(inp, atan);
            && (r.outcome == Failed(CenterDetection)
                <==> inp.imageFound && inp.blurredImagesPresent && inp.edgesPresent && inp.circle.Some?
                     && |inp.keypoints| == 0)
            && (r.outcome == Failed(LineDetection)
                <==> inp.imageFound && inp.blurredImagesPresent && inp.edgesPresent && inp.circle.Some?
                     && |inp.keypoints| > 0 && (inp.lines.None? || |inp.lines.value| == 0))
  {
  }

  /** Past line detection, no candidate near the refined center is a logged
      failure, and exactly one is an `IndexError`. */
  lemma HandStageEnds(inp: Collaborators, atan: AngleFn)
    ensures var r := ReadClockTime(inp, atan);
            && (r.outcome == Failed(HandIdentification) <==> UpstreamReady(inp) && |HandCandidates(inp)| == 0)
            && (r.outcome == Crashed(IndexError) <==> UpstreamReady(inp) && |HandCandidates(inp)| == 1)
  {
  }

  /** Stage `s` reads only the collaborator results of stages up to `s`. */
  predicate AgreeThrough(a: Collaborators, b: Collaborators, s: Stage)
  {
    && a.imageFound == b.imageFound && a.blurredImagesPresent == b.blurredImagesPresent
    && (s != Preprocessing ==> a.edgesPresent == b.edgesPresent)
    && (s !in {Preprocessing, EdgeDetection} ==> a.circle == b.circle)
    && (s !in {Preprocessing, EdgeDetection, FaceDetection} ==> a.keypoints == b.keypoints)
    && (s !in {Preprocessing, EdgeDetection, FaceDetection, CenterDetection} ==> a.lines == b.lines)
  }

  /** Fail fast: once stage `s` fails, what later stages would have been
      given cannot change the run. */
  lemma LaterStagesNotRun(a: Collaborators, b: Collaborators, atan: AngleFn)
    requires ReadClockTime(a, atan).outcome.Failed?
    requires AgreeThrough(a, b, ReadClockTime(a, atan).outcome.stage)
    ensures ReadClockTime(b, atan) == ReadClockTime(a, atan)
  {
  }

  /** The circle found in step 3 matters only through the blob it selects:
      the hands are read around the blob's center. */
  lemma CircleUsedOnlyToPickBlob(a: Collaborators, b: Collaborators, atan: AngleFn)
    requires a.(circle := b.circle) == b
    requires a.circle.Some? && b.circle.Some?
    requires DetectClockCenterBlob(a.keypoints, a.circle.value)
             == DetectClockCenterBlob(b.keypoints, b.circle.value)
    ensures ReadClockTime(a, atan).outcome == ReadClockTime(b, atan).outcome
  {
  }

  /** What `main` ends with: the final banner's success flag and message. */
  datatype Report = Report(success: bool, message: string)

  /** `main`: reports success exactly when `read_clock_time` returned a
      non-empty string; an exception from it escapes `main` as well. */
  function MainReport(outcome: Outcome): (rep: Attempt<Report>)
    ensures rep.Raised? <==> outcome.Crashed?
    ensures rep.Raised? ==> rep.exception == outcome.exception
    ensures rep.Returned? ==> (rep.value.success <==> outcome.Time? && |outcome.text| > 0)
    ensures rep.Returned? && rep.value.success ==> rep.value.message == "DETECTED TIME: " + outcome.text
    ensures rep.Returned? && !rep.value.success
            ==> rep.value.message == "Failed to detect time from the clock image"
  {
    match outcome
    case Crashed(e) => Raised(e)
    case Time(t) =>
      if |t| > 0 then Returned(Report(true, "DETECTED TIME: " + t))
      else Returned(Report(false, "Failed to detect time from the clock image"))
    case Failed(_) => Returned(Report(false, "Failed to detect time from the clock image"))
  }

  /** End to end: `main` reports a time exactly when every collaborator
      delivered and at least two lines pass the center filter. */
  lemma MainSucceedsIff(inp: Collaborators, atan: AngleFn)
    ensures var rep := MainReport(ReadClockTime(inp, atan).outcome);
            (rep.Returned? && rep.value.success) <==> UpstreamReady(inp) && |HandCandidates(inp)| >= 2
  {
    var r := ReadClockTime(inp, atan);
    if r.outcome.Time? {
      assert |r.outcome.text| == 5;
    }
  }
}
