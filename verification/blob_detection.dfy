/** Center refinement: among the blobs the detector found, take the one
    nearest the approximate center given by the circle detector. */
module BlobDetection {
  import opened Outcomes

  /** A detected blob: `keypoint.pt` and `keypoint.size` (floating point). */
  datatype Keypoint = Keypoint(x: real, y: real, size: real)

  /** The circle detector's `((x, y), radius)`, already integral. */
  datatype Circle = Circle(x: int, y: int, radius: int)

  /** `(int(x), int(y), int(size / 2))` of the chosen blob. */
  datatype BlobCenter = BlobCenter(x: int, y: int, radius: int)

  /** Python's `int()` on a float: drop the fraction, toward zero. */
  function TruncateTowardZero(r: real): (n: int)
    ensures r >= 0.0 ==> 0 <= n && n as real <= r < n as real + 1.0
    ensures r < 0.0 ==> n <= 0 && n as real - 1.0 < r <= n as real
  {
    if r >= 0.0 then r.Floor else -((-r).Floor)
  }

  /** Squared distance from a blob to the approximate center; it orders
      blobs as the source's `np.sqrt` distance does. */
  function SqDistToCenter(k: Keypoint, approx: Circle): real
  {
    (k.x - approx.x as real) * (k.x - approx.x as real)
    + (k.y - approx.y as real) * (k.y - approx.y as real)
  }

  /** `k` is the first blob among the nearest ones. */
  ghost predicate IsFirstNearest(kps: seq<Keypoint>, approx: Circle, k: int)
  {
    && 0 <= k < |kps|
    && (forall j :: 0 <= j < |kps| ==> SqDistToCenter(kps[k], approx) <= SqDistToCenter(kps[j], approx))
    && (forall j :: 0 <= j < k ==> SqDistToCenter(kps[j], approx) > SqDistToCenter(kps[k], approx))
  }

  /** The scan of `detect_clock_center_blob`: starting from an infinite
      minimum, a blob replaces the current choice only when strictly
      nearer, so the first of several equally near blobs is kept. */
  function NearestKeypoint(kps: seq<Keypoint>, approx: Circle): (k: nat)
    requires |kps| > 0
    ensures IsFirstNearest(kps, approx, k)
  {
    if |kps| == 1 then 0
    else
      var n := |kps| - 1;
      var best := NearestKeypoint(kps[..n], approx);
      assert kps[best] == kps[..n][best];
      if SqDistToCenter(kps[n], approx) < SqDistToCenter(kps[best], approx) then n else best
  }

  /** At most one blob is the first nearest. */
  lemma FirstNearestUnique(kps: seq<Keypoint>, approx: Circle, k1: int, k2: int)
    requires IsFirstNearest(kps, approx, k1) && IsFirstNearest(kps, approx, k2)
    ensures k1 == k2
  {
    if k1 != k2 {
      // the earlier of the two is strictly nearer than the later one, yet
      // the later one is no farther than any blob
      var lo, hi := if k1 < k2 then k1 else k2, if k1 < k2 then k2 else k1;
      EarlierIsFarther(kps, approx, hi, lo);
      NearestIsClosest(kps, approx, lo, hi);
      assert false;
    }
  }

  lemma EarlierIsFarther(kps: seq<Keypoint>, approx: Circle, k: int, j: int)
    ensures IsFirstNearest(kps, approx, k) && 0 <= j < k
            ==> SqDistToCenter(kps[j], approx) > SqDistToCenter(kps[k], approx)
  {
  }

  lemma NearestIsClosest(kps: seq<Keypoint>, approx: Circle, k: int, j: int)
    ensures IsFirstNearest(kps, approx, k) && 0 <= j < |kps|
            ==> SqDistToCenter(kps[k], approx) <= SqDistToCenter(kps[j], approx)
  {
  }

  function CenterOf(k: Keypoint): BlobCenter
  {
    BlobCenter(TruncateTowardZero(k.x), TruncateTowardZero(k.y), TruncateTowardZero(k.size / 2.0))
  }

  /** `detect_clock_center_blob` on the detector's keypoints: `None` exactly
      when there are none, otherwise the truncated position and half size of
      the first nearest blob. */
  function DetectClockCenterBlob(kps: seq<Keypoint>, approx: Circle): (r: Option<BlobCenter>)
    ensures r.None? <==> |kps| == 0
    ensures r.Some? ==> exists k :: IsFirstNearest(kps, approx, k) && r.value == CenterOf(kps[k])
  {
    if |kps| == 0 then None
    else Some(CenterOf(kps[NearestKeypoint(kps, approx)]))
  }

  lemma SameDistance(k: Keypoint, c1: Circle, c2: Circle)
    requires c1.x == c2.x && c1.y == c2.y
    ensures SqDistToCenter(k, c1) == SqDistToCenter(k, c2)
  {
  }

  /** The chosen blob depends on the circle's position only: its radius is
      never read. */
  lemma CircleRadiusIgnored(kps: seq<Keypoint>, x: int, y: int, r1: int, r2: int)
    ensures DetectClockCenterBlob(kps, Circle(x, y, r1)) == DetectClockCenterBlob(kps, Circle(x, y, r2))
  {
    if |kps| > 0 {
      var c1, c2 := Circle(x, y, r1), Circle(x, y, r2);
      var k1 := NearestKeypoint(kps, c1);
      var k2 := NearestKeypoint(kps, c2);
      forall j | 0 <= j < |kps|
        ensures SqDistToCenter(kps[j], c1) == SqDistToCenter(kps[j], c2)
      {
        SameDistance(kps[j], c1, c2);
      }
      assert IsFirstNearest(kps, c1, k2);
      FirstNearestUnique(kps, c1, k1, k2);
    }
  }
}
