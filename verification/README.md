# TellMeTheTime clock-hand core in Dafny

TellMeTheTime reads the time from a photo of an analog clock. Six stages run in a fixed order:

1. preprocessing;
2. Canny edges;
3. a Hough circle for the clock face;
4. blob detection, which refines the pivot;
5. Hough lines, then hand identification;
6. time estimation.

The first stage that comes back empty ends the run and returns `None`.

This project models the parts of that program that make decisions:

- **Hand stage** (`HandDetection`):
  - keeps the lines with an endpoint within 30 pixels of the pivot;
  - ranks them longest first, using Python's stable sort;
  - takes the longest as the minute hand and the second as the hour hand;
  - reads each hand by the angle of its far endpoint, measured clockwise from 12;
  - formats the result as `"HH:MM"`.
- **Blob refinement** (`BlobDetection`): the keypoint nearest the circle's center, with its coordinates truncated toward zero. Among equally near keypoints the first one listed wins, because a later keypoint replaces the current choice only when it is strictly nearer.
- **Pipeline** (`Pipeline`): `read_clock_time` and `main` as a chain of stage functions. What the image-processing collaborators returned for one image is an input record.
- **Logger** (`Logger`): the message string `log` builds, and the boxed title of `log_application_title`.

`LengthSort` models `list.sort(key=..., reverse=True)` as a stable insertion sort. It also proves that a stable longest-first order is unique, so the model agrees with Timsort. `TimeText` formats `f"{h:02}:{m:02}"` and holds a parser that inverts it. `ClockExamples` works through two clock images end to end.

Modelling choices:

- **Distances.** Pixel coordinates are integers. Every `np.hypot`/`np.sqrt` comparison is done on squared distances, which order points the same way.
- **Angles.** `atan2` followed by `degrees` and the `+ 360` normalisation is a parameter, `atan: AngleFn`, whose results lie in `[0, 360)`. `ClockwiseFromTwelve` states what `atan2` guarantees at the zero offset, on the axes and in the four quadrants.
- **Exceptions.** The exceptions the source lets escape are values: `Attempt.Raised(IndexError)` and `Raised(FileNotFoundError)`.

The model follows what the code does:

- No duplicate merging. Every line that passes the center filter is a candidate. A hand detected twice fills both hands (`DuplicateLineFillsBothHands`).
- No single-candidate fallback. With exactly one candidate, `markers_lengths[1]` raises `IndexError`, and the exception escapes `main` (`OneLineRaises`, `HandStageEnds`).
- The hour comes from the hour hand's angle alone. The minute hand does not correct it.

## Model

| member | source | states |
|---|---|---|
| Geometry.SqLengthReversed | detection_files/hand_detection.py:84-85 | a line's length does not depend on which endpoint the detector listed first |
| HandDetection.FilterLinesByCenter | detection_files/hand_detection.py:9-33 | a line is kept exactly when it is in the input and one of its endpoints lies strictly within the radius of the center; the result is never longer than the input |
| HandDetection.FilterKeepsOrder | detection_files/hand_detection.py:23-33 | the kept lines are the input lines at strictly increasing positions, and a position is kept exactly when its line passes the filter |
| HandDetection.FilterAppend | detection_files/hand_detection.py:25-32 | filtering decides line by line: filtering a concatenation is concatenating the filtered parts |
| HandDetection.FilterIdempotent | detection_files/hand_detection.py:9-33 | filtering a second time with the same center and radius changes nothing |
| HandDetection.FarEndpoint | detection_files/hand_detection.py:52-58 | the chosen endpoint is one of the line's two ends and at least as far from the center as either; on equal distances it is `(x1, y1)` |
| HandDetection.PivotEndIsFar | detection_files/hand_detection.py:52-58 | a line drawn out from the pivot is read by its other end |
| HandDetection.CalculateLineAngle | detection_files/hand_detection.py:36-68 | the angle lies in `[0, 360)` |
| HandDetection.LineAngleClockwiseFromUp | detection_files/hand_detection.py:60-68 | with the image y axis flipped, the angle is measured clockwise from straight up. A far end on the center itself or straight above it reads 0, to the right 90, below 180 and to the left 270. Each open quadrant lands strictly between its two axes |
| HandDetection.FarEndpointIsStrict | detection_files/hand_detection.py:53-55 | if a line passes within `r` of the center and is at least `2r` long, its two endpoints are at different distances. Hough lines are at least 80 pixels (detection_files/hough_detection.py:36), more than twice the radius of 30 |
| HandDetection.LineAngleIgnoresEndpointOrder | detection_files/hand_detection.py:49-68 | for such a line, listing the endpoints the other way round gives the same angle |
| HandDetection.TieDependsOnEndpointOrder | detection_files/hand_detection.py:53-58 | on a distance tie the listed order decides: one line centred on the pivot reads 270 one way round and 90 the other |
| HandDetection.CalculateLinesLength | detection_files/hand_detection.py:71-87 | one entry per line, in input order, pairing each line with its own length |
| LengthSort.Insert | detection_files/hand_detection.py:112 | inserting keeps every entry, counted with multiplicity, and adds exactly the new one |
| LengthSort.InsertDescending | detection_files/hand_detection.py:112 | inserting into a longest-first list keeps it longest first |
| LengthSort.InsertStable | detection_files/hand_detection.py:112 | the inserted entry lands before every equally long entry already present |
| LengthSort.SortDescending | detection_files/hand_detection.py:112 | the result is a permutation of the input, longest first |
| LengthSort.SortIsStable | detection_files/hand_detection.py:112 | equally long entries keep their input order |
| LengthSort.StableOrderUnique | detection_files/hand_detection.py:112 | two longest-first orders that keep equal lengths in the same relative order are identical, so any stable sort gives this result |
| LengthSort.FirstLongest | detection_files/hand_detection.py:112-113 | the index of an entry no shorter than any other, with every earlier entry strictly shorter |
| LengthSort.SortSplitsOffFirstLongest | detection_files/hand_detection.py:112 | the sorted list is the first longest entry followed by the sort of the rest |
| LengthSort.SortedHeadIsLongest | detection_files/hand_detection.py:112-113 | no input entry is longer than the first entry of the sort |
| LengthSort.SortedFirstTwo | detection_files/hand_detection.py:112-113 | the first two sorted entries are the first longest entry and then the first longest of the others |
| HandDetection.RankedEntriesAreLines | detection_files/hand_detection.py:109-113 | every ranked entry carries one of the filtered lines |
| HandDetection.RankedFirstIsLongest | detection_files/hand_detection.py:109-113 | the first ranked entry is at least as long as every filtered line |
| HandDetection.IdentifyHourAndMinuteHands | detection_files/hand_detection.py:90-113 | `(None, None)` exactly when no line passes the filter; `IndexError` exactly when one does; otherwise both hands are candidates, the hour hand is no longer than the minute hand, and no candidate is longer than the minute hand |
| HandDetection.HandsAreFirstAndSecondLongest | detection_files/hand_detection.py:103-113 | the minute hand is the first longest candidate; the hour hand is the first longest of the candidates left after removing it |
| HandDetection.DuplicateLineFillsBothHands | detection_files/hand_detection.py:103-113 | a passing line listed twice becomes both hands, since nothing merges duplicates |
| HandDetection.HourOfAngle | detection_files/hand_detection.py:132 | the hour is below 12 and is the 30-degree sector containing the angle |
| HandDetection.MinuteOfAngle | detection_files/hand_detection.py:133 | the minute is below 60 and is the 6-degree sector containing the angle |
| HandDetection.ReadTimeFromHands | detection_files/hand_detection.py:115-135 | always five characters `HH:MM` that parse back to an hour in the hour hand's 30-degree sector and a minute in the minute hand's 6-degree sector |
| HandDetection.LowerRightHourHand | detection_files/hand_detection.py:128-132 | an hour hand whose far end is right of and below the pivot reads 3, 4 or 5, a corollary of `LineAngleClockwiseFromUp` |
| TimeText.TwoDigits | detection_files/hand_detection.py:135 | `{n:02}` gives two decimal digits whose value is `n` |
| TimeText.FormatClock | detection_files/hand_detection.py:135 | five characters: digits around a colon at index 2 |
| TimeText.ParseFormatRoundTrip | detection_files/hand_detection.py:135 | reading the text back recovers the hour and the minute |
| TimeText.FormatParseRoundTrip | detection_files/hand_detection.py:135 | every `DD:DD` text is the format of the reading parsed from it |
| BlobDetection.TruncateTowardZero | detection_files/blob_detection.py:80 | Python's `int()` on a float: the fraction is dropped toward zero for either sign |
| BlobDetection.NearestKeypoint | detection_files/blob_detection.py:60-80 | the scan keeps a blob no farther than any other and strictly nearer than every earlier one |
| BlobDetection.FirstNearestUnique | detection_files/blob_detection.py:74-80 | only one blob can be the first nearest, so the choice is determined |
| BlobDetection.DetectClockCenterBlob | detection_files/blob_detection.py:40-86 | `None` exactly when there are no keypoints; otherwise the truncated position and half size of the first nearest blob |
| BlobDetection.CircleRadiusIgnored | detection_files/blob_detection.py:74-80 | the chosen blob depends on the circle's position only, never on its radius |
| Logger.Repeat | logger.py:81 | Python `c * n`: `n` copies of `c`, and empty when `n` is not positive |
| Logger.Message | logger.py:80-90 | the message is the indentation tabs, then the color code, the content and the reset code; the color parts appear only for a non-empty color |
| Logger.ApplicationTitle | logger.py:108-129 | the box is widened to `len(title) + 4` when the title does not fit. The title sits between space runs that differ by at most one, with the extra space on the right. All three lines have the box width, with corners and borders in place |
| Logger.ApplicationTitleStable | logger.py:120-124 | laying the title out again at the width it got gives the same box |
| Pipeline.EstimateTime | main.py:160-171 | the stage always ends the run with the time read from the two hands. The text is never empty, so the "Time estimation failed" branch is dead |
| Pipeline.IdentifyHands | main.py:142-146 | runs in order from the hand-identification stage. A logged failure exactly when no candidate passes the filter, `IndexError` exactly when one does, a time exactly when two or more do, read from the identified hands |
| Pipeline.DetectLines | main.py:128-133 | no lines, or an empty list of lines, is a line-detection failure; otherwise the hand stage decides |
| Pipeline.RefineCenter | main.py:103-113 | no keypoints is a center-detection failure; otherwise the hands are read around the truncated blob position |
| Pipeline.DetectFace | main.py:89-96 | no circle is a face-detection failure; otherwise center refinement decides |
| Pipeline.DetectEdges | main.py:74-82 | no edge map is an edge-detection failure; otherwise face detection decides |
| Pipeline.ReadClockTime | main.py:30-171 | stages run in the fixed order and the last one run reports any failure. `FileNotFoundError` exactly when the image is missing. A time exactly when every collaborator delivered and at least two lines pass the filter, read at the blob-refined center. The time-estimation failure branch is never taken |
| Pipeline.ReachesHandStage | main.py:74-146 | once preprocessing succeeds, a run with every collaborator present ends as the hand stage at the refined center ends; any other run fails at edge, face, center or line detection |
| Pipeline.EarlyStageFailsOnMiss | main.py:56-96 | preprocessing, edge and face detection each fail exactly when the earlier stages succeeded and their own input is missing |
| Pipeline.LateStageFailsOnMiss | main.py:103-133 | center and line detection each fail exactly when the earlier stages succeeded and their own input is missing or empty |
| Pipeline.HandStageEnds | main.py:142-146 | with everything upstream present, no candidate is a logged failure and exactly one is an escaping `IndexError` |
| Pipeline.LaterStagesNotRun | main.py:30-171 | once a stage fails, changing what later stages would have received changes nothing |
| Pipeline.CircleUsedOnlyToPickBlob | main.py:93-113 | the circle matters only through the blob it selects |
| Pipeline.MainReport | main.py:175-188 | success exactly for a non-empty time, with message `DETECTED TIME: ` plus the time; the failure message otherwise; an exception from the pipeline escapes `main` |
| Pipeline.MainSucceedsIff | main.py:175-188 | `main` reports success exactly when every collaborator delivered and at least two lines pass the center filter |
| ClockExamples.ReadsHalfPastThree | detection_files/hand_detection.py:115-135 | an hour hand pointing at 3 and a minute hand pointing at 6 read `"03:30"` |
| ClockExamples.ThreeOClockHands | detection_files/hand_detection.py:90-113 | of a 12-o'clock line of length 80 and a 3-o'clock line of length 60, the longer one is the minute hand |
| ClockExamples.ReadsThreeOClock | main.py:30-171 | that image runs through every stage and reads `"03:00"` |
| ClockExamples.ReportsThreeOClock | main.py:184-186 | `main` reports `DETECTED TIME: 03:00` for it |
| ClockExamples.OneLineRaises | detection_files/hand_detection.py:113 | with only the minute line present, the run raises `IndexError` |

## Left out

- Image loading, grayscale conversion, thresholding, Gaussian blur, Canny, and both Hough transforms (`preprocessing.py`, `detection_files/hough_detection.py`) are not modelled. Their results for one image are the fields of `Pipeline.Collaborators`.
- The blob detector itself is not modelled. The model starts from the keypoints it returned.
- `setup_blob_detector` only configures the blob detector, which is not modelled. `detect_hour_markers`, `find_contours_as_blobs` and `filter_blobs_by_properties` are `pass` stubs that nothing calls.
- Drawing, `cv2.imwrite`, `os.makedirs`, and the `visualize` and `save_output` parameters are not modelled, because they do not affect the result.
- Printing is not modelled: the newlines around `log` messages, `log_newline`, section headers, step lines and `log_final_result`'s banner. The model keeps only the strings built and the success flag with its message.
- `preprocess_image` and `detect_clock_center_blob` read a name that is unbound when the image has an unexpected number of channels. The model assumes a three-channel photo, so the `UnboundLocalError` is not modelled.
- The preprocessing and edge-detection failure branches (main.py:65 and main.py:80) and the `lines is None` half of main.py:131 are modelled over free inputs. In the program they cannot be taken: `preprocess_image` returns images or raises, `cv2.GaussianBlur` and `cv2.Canny` never return `None`, and `detect_lines_hough` returns `[]` rather than `None` when it finds no line (detection_files/hough_detection.py:56-59). So `Collaborators.lines` being `None` is a case the program never produces.
- The `hour_markers is None` test in `main.py` is not modelled, because `identify_hour_and_minute_hands` never returns `None` itself.
- Floating point in general is not modelled.
  - Distances are exact squared integers; keypoint coordinates are exact reals.
  - `atan2` and `degrees` are the parameter `atan`.
  - The `% 12` and `% 60` in `read_time_from_hands` change nothing over the reals. In the source they only catch a product that rounds up to 12.0 or 60.0.
- CalculateLinesLength: each entry stores the squared length rather than the float `np.hypot`. The two order lines identically except where float rounding would make different lengths equal, and the model does not capture that.
- CalculateLineAngle: its own contract states only the range of the angle. `LineAngleClockwiseFromUp` states the direction, from `ClockwiseFromTwelve`. That predicate pins `atan2` down exactly on the axes but only to its quadrant elsewhere, so exact angles off the axes are not modelled.
- HourOfAngle: it ignores the float rounding of `(angle / 360) * 12` near a sector boundary, for the reason given above.
- MinuteOfAngle: it ignores the float rounding of `(angle / 360) * 60` near a sector boundary, for the same reason.
