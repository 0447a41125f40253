/**
 * The browser pose sampler: on each paint-cycle callback it decides whether
 * to sample (running, video ready, throttle interval elapsed), runs the
 * pose detector on accepted ticks, maps the detector's landmark names onto
 * the twelve canonical joints, normalises pixel coordinates by the frame
 * size, and hands a non-empty frame to the single registered subscriber.
 *
 * The detector, the paint-cycle scheduler and the clocks are outside the
 * model: their results (detector output or failure, the handle the
 * scheduler returns, the current times) are parameters of `Tick`.
 */
module PoseSampling {
  import opened Wrappers
  import opened Schemas

  const DefaultTargetFps: real := 30.0
  const MinFps: real := 5.0
  const MaxFps: real := 60.0
  /** `HTMLMediaElement.HAVE_CURRENT_DATA`: the first ready state with a decoded frame. */
  const HaveCurrentData: int := 2

  function Min(a: real, b: real): real { if a <= b then a else b }
  function Max(a: real, b: real): real { if a >= b then a else b }

  /** `min(60, max(5, targetFPS ?? 30))` */
  function ClampFps(target: Option<real>): (fps: real)
    ensures MinFps <= fps <= MaxFps
    ensures target.None? ==> fps == DefaultTargetFps
    ensures target.Some? && MinFps <= target.value <= MaxFps ==> fps == target.value
    ensures target.Some? && target.value < MinFps ==> fps == MinFps
    ensures target.Some? && target.value > MaxFps ==> fps == MaxFps
  {
    Min(MaxFps, Max(MinFps, target.GetOr(DefaultTargetFps)))
  }

  // ---------------------------------------------------------------------
  // Landmark names.
  // ---------------------------------------------------------------------

  /** The twelve joint names the backend expects. */
  const Joints: set<string> := {
    "left_shoulder", "right_shoulder", "left_elbow", "right_elbow",
    "left_wrist", "right_wrist", "left_hip", "right_hip",
    "left_knee", "right_knee", "left_ankle", "right_ankle"
  }

  /** Matched against the lower-cased name. */
  const SnakeCaseNames: map<string, string> := map[
    "left_shoulder" := "left_shoulder", "right_shoulder" := "right_shoulder",
    "left_elbow" := "left_elbow", "right_elbow" := "right_elbow",
    "left_wrist" := "left_wrist", "right_wrist" := "right_wrist",
    "left_hip" := "left_hip", "right_hip" := "right_hip",
    "left_knee" := "left_knee", "right_knee" := "right_knee",
    "left_ankle" := "left_ankle", "right_ankle" := "right_ankle"
  ]

  /** Matched against the name exactly as given. */
  const CamelCaseNames: map<string, string> := map[
    "leftShoulder" := "left_shoulder", "rightShoulder" := "right_shoulder",
    "leftElbow" := "left_elbow", "rightElbow" := "right_elbow",
    "leftWrist" := "left_wrist", "rightWrist" := "right_wrist",
    "leftHip" := "left_hip", "rightHip" := "right_hip",
    "leftKnee" := "left_knee", "rightKnee" := "right_knee",
    "leftAnkle" := "left_ankle", "rightAnkle" := "right_ankle"
  ]

  /**
   * JavaScript's `toLowerCase` as far as matching an all-ASCII table can
   * tell: ASCII capitals and the KELVIN SIGN (U+212A) lower to ASCII letters;
   * every other character either is unchanged or lowers to non-ASCII text,
   * which no table key contains.
   */
  function LowerChar(c: char): (r: char)
    ensures !('A' <= r <= 'Z')
    ensures 'A' <= c <= 'Z' ==> r as int == c as int + 32
    ensures r != c ==> 'A' <= c <= 'Z' || c == '\U{212A}'
  {
    if 'A' <= c <= 'Z' then (c as int + 32) as char
    else if c == '\U{212A}' then 'k'
    else c
  }

  function Lower(s: string): (r: string)
    ensures |r| == |s|
    ensures forall i :: 0 <= i < |s| ==> r[i] == LowerChar(s[i])
  {
    seq(|s|, i requires 0 <= i < |s| => LowerChar(s[i]))
  }

  /**
   * A detector landmark name to a canonical joint: empty or missing names
   * and unknown names give nothing; the snake_case table is consulted on the
   * lower-cased name first, then the camelCase table on the name as given.
   */
  function MapKeypointName(name: Option<string>): (r: Option<string>)
    ensures r.Some? ==> r.value in Joints
    ensures name.None? || name.value == [] ==> r.None?
    ensures name.Some? && name.value != [] && Lower(name.value) in SnakeCaseNames ==> r == Some(Lower(name.value))
    ensures name.Some? && Lower(name.value) !in SnakeCaseNames && name.value !in CamelCaseNames ==> r.None?
  {
    if name.None? || name.value == [] then None
    else
      var n := Lower(name.value);
      if n in SnakeCaseNames then Some(SnakeCaseNames[n])
      else if name.value in CamelCaseNames then Some(CamelCaseNames[name.value])
      else None
  }

  /** A string with no ASCII capital and no KELVIN SIGN is its own lower case. */
  lemma LowerUnchanged(s: string)
    requires forall i :: 0 <= i < |s| ==> !('A' <= s[i] <= 'Z') && s[i] != '\U{212A}'
    ensures Lower(s) == s
  {
  }

  /** Spelled in lower-case letters and underscores only. */
  predicate SnakeSpelling(s: string) {
    forall i :: 0 <= i < |s| ==> s[i] == '_' || 'a' <= s[i] <= 'z'
  }

  /** Every canonical joint name is recognised as itself. */
  lemma JointNamesRecognised(j: string)
    requires j in Joints
    ensures MapKeypointName(Some(j)) == Some(j)
  {
    assert SnakeSpelling(j) by {
      if j == "left_shoulder" {} else if j == "right_shoulder" {}
      else if j == "left_elbow" {} else if j == "right_elbow" {}
      else if j == "left_wrist" {} else if j == "right_wrist" {}
      else if j == "left_hip" {} else if j == "right_hip" {}
      else if j == "left_knee" {} else if j == "right_knee" {}
      else if j == "left_ankle" {} else {}
    }
    LowerUnchanged(j);
  }

  /** Lower-casing never produces an underscore from anything but an underscore. */
  lemma NoUnderscoreAfterLower(s: string)
    requires '_' !in s
    ensures '_' !in Lower(s)
  {
  }

  /** Every camelCase part name is recognised as its joint (the snake_case table cannot claim it). */
  lemma CamelNamesRecognised(k: string)
    requires k in CamelCaseNames
    ensures MapKeypointName(Some(k)) == Some(CamelCaseNames[k])
  {
    CamelKeysHaveNoUnderscore(k);
    NoUnderscoreAfterLower(k);
    if Lower(k) in SnakeCaseNames {
      SnakeKeysHaveUnderscore(Lower(k));
    }
  }

  lemma CamelKeysHaveNoUnderscore(k: string)
    requires k in CamelCaseNames
    ensures '_' !in k
  {
    if k == "leftShoulder" {} else if k == "rightShoulder" {}
    else if k == "leftElbow" {} else if k == "rightElbow" {}
    else if k == "leftWrist" {} else if k == "rightWrist" {}
    else if k == "leftHip" {} else if k == "rightHip" {}
    else if k == "leftKnee" {} else if k == "rightKnee" {}
    else if k == "leftAnkle" {} else {}
  }

  lemma SnakeKeysHaveUnderscore(j: string)
    requires j in SnakeCaseNames
    ensures '_' in j
  {
    if j == "left_shoulder" || j == "left_elbow" || j == "left_wrist" || j == "left_hip" || j == "left_knee" || j == "left_ankle" {
      assert j[4] == '_';
    } else {
      assert j[5] == '_';
    }
  }

  /** The snake_case table ignores case: an upper-case spelling is found too. */
  lemma UpperCaseSnakeRecognised()
    ensures MapKeypointName(Some("LEFT_KNEE")) == Some("left_knee")
  {
    assert Lower("LEFT_KNEE") == "left_knee";
  }

  /** `toLowerCase` turns the KELVIN SIGN into an ASCII `k`, so this spelling is found as well. */
  lemma KelvinSignRecognised()
    ensures MapKeypointName(Some("right_\U{212A}nee")) == Some("right_knee")
  {
    assert Lower("right_\U{212A}nee") == "right_knee";
  }

  /** The camelCase table does not: a lower-cased camelCase name is unknown. */
  lemma LowerCaseCamelUnknown()
    ensures MapKeypointName(Some("leftknee")) == None
  {
    assert Lower("leftknee") == "leftknee";
  }

  // ---------------------------------------------------------------------
  // Building one frame from detector output.
  // ---------------------------------------------------------------------

  /** One landmark as the detector reports it, in pixels. */
  datatype RawKeypoint = RawKeypoint(name: Option<string>, part: Option<string>, x: real, y: real, score: Option<real>)

  datatype Pose = Pose(keypoints: seq<RawKeypoint>)

  /** What the detector call did: returned poses, or threw. */
  datatype Detection = Returned(poses: seq<Pose>) | Threw

  /** `k.name || k.part` */
  function Label(k: RawKeypoint): (r: Option<string>)
    ensures k.name.Some? && k.name.value != [] ==> r == k.name
    ensures k.name.None? || k.name.value == [] ==> r == k.part
  {
    if k.name.Some? && k.name.value != [] then k.name else k.part
  }

  function CanonicalName(k: RawKeypoint): (r: Option<string>)
    ensures r.Some? ==> r.value in Joints
  {
    MapKeypointName(Label(k))
  }

  /** `dimension || 1`: a zero frame size divides by one instead. */
  function Divisor(d: nat): (r: real)
    ensures r > 0.0
    ensures d > 0 ==> r == d as real
  {
    if d == 0 then 1.0 else d as real
  }

  function Normalized(k: RawKeypoint, width: nat, height: nat): (p: PosePoint)
    ensures p.x * Divisor(width) == k.x && p.y * Divisor(height) == k.y && p.score == k.score
  {
    PosePoint(k.x / Divisor(width), k.y / Divisor(height), k.score)
  }

  /** `poses?.[0]?.keypoints || []` */
  function FirstPoseKeypoints(poses: seq<Pose>): (kps: seq<RawKeypoint>)
    ensures poses == [] ==> kps == []
    ensures poses != [] ==> kps == poses[0].keypoints
  {
    if |poses| > 0 then poses[0].keypoints else []
  }

  /** The keypoints processed in order, unknown names skipped, a later duplicate replacing an earlier one. */
  function MapKeypoints(kps: seq<RawKeypoint>, width: nat, height: nat): (m: map<string, PosePoint>)
    ensures m.Keys <= Joints
    decreases |kps|
  {
    if kps == [] then map[]
    else
      var m := MapKeypoints(kps[..|kps| - 1], width, height);
      var k := kps[|kps| - 1];
      match CanonicalName(k)
      case None => m
      case Some(j) => m[j := Normalized(k, width, height)]
  }

  /** `j` occurs as the canonical name of `kps[i]` and of no later keypoint. */
  predicate LastWith(kps: seq<RawKeypoint>, j: string, i: int) {
    && 0 <= i < |kps|
    && CanonicalName(kps[i]) == Some(j)
    && forall l :: i < l < |kps| ==> CanonicalName(kps[l]) != Some(j)
  }

  /** A joint is in the frame exactly when some keypoint maps to it. */
  lemma {:induction false} MappedJoints(kps: seq<RawKeypoint>, width: nat, height: nat, j: string)
    ensures j in MapKeypoints(kps, width, height) <==> exists i :: 0 <= i < |kps| && CanonicalName(kps[i]) == Some(j)
    decreases |kps|
  {
    if kps != [] {
      var front := kps[..|kps| - 1];
      MappedJoints(front, width, height, j);
      if j in MapKeypoints(kps, width, height) && CanonicalName(kps[|kps| - 1]) != Some(j) {
        var i :| 0 <= i < |front| && CanonicalName(front[i]) == Some(j);
        assert CanonicalName(kps[i]) == Some(j);
      }
      if i :| 0 <= i < |front| && CanonicalName(kps[i]) == Some(j) {
        assert front[i] == kps[i];
      }
    }
  }

  /** A joint's point is the normalised last keypoint that maps to it: later keypoints win. */
  lemma {:induction false} MappedPoints(kps: seq<RawKeypoint>, width: nat, height: nat, j: string)
    ensures forall i :: LastWith(kps, j, i) ==>
      j in MapKeypoints(kps, width, height) && MapKeypoints(kps, width, height)[j] == Normalized(kps[i], width, height)
    decreases |kps|
  {
    if kps != [] {
      var front := kps[..|kps| - 1];
      MappedPoints(front, width, height, j);
      forall i | LastWith(kps, j, i)
        ensures j in MapKeypoints(kps, width, height) && MapKeypoints(kps, width, height)[j] == Normalized(kps[i], width, height)
      {
        if i < |kps| - 1 {
          assert LastWith(front, j, i) by {
            assert forall l :: i <= l < |front| ==> front[l] == kps[l];
          }
          assert CanonicalName(kps[|kps| - 1]) != Some(j);
          assert MapKeypoints(kps, width, height)[j] == MapKeypoints(front, width, height)[j];
        }
      }
    }
  }

  /** The loop that fills the frame's keypoint map. */
  method BuildKeypoints(kps: seq<RawKeypoint>, width: nat, height: nat) returns (mapped: map<string, PosePoint>)
    ensures mapped == MapKeypoints(kps, width, height)
  {
    mapped := map[];
    for i := 0 to |kps|
      invariant mapped == MapKeypoints(kps[..i], width, height)
    {
      assert kps[..i + 1][..i] == kps[..i];
      var k := kps[i];
      var name := MapKeypointName(Label(k));
      if name.None? {
        continue;
      }
      var x := k.x / Divisor(width);
      var y := k.y / Divisor(height);
      mapped := mapped[name.value := PosePoint(x, y, k.score)];
    }
    assert kps[..|kps|] == kps;
  }

  // ---------------------------------------------------------------------
  // The per-tick decision.
  // ---------------------------------------------------------------------

  /** A tick samples only while running, with a decoded frame, once the interval has elapsed. */
  function Accepts(running: bool, readyState: int, now: real, lastTs: real, fps: real): (accepted: bool)
    requires fps > 0.0
    ensures accepted ==> running && readyState >= HaveCurrentData && now >= lastTs + 1000.0 / fps
    ensures running && readyState >= HaveCurrentData && now >= lastTs + 1000.0 / fps ==> accepted
  {
    running && readyState >= HaveCurrentData && now - lastTs >= 1000.0 / fps
  }

  /** A frame handed to a subscriber. */
  datatype Delivery = Delivery(subscriber: nat, frame: PoseFrame)

  /** What an accepted tick delivers: nothing on a detector error, an empty map or no subscriber. */
  function Emission(cb: Option<nat>, detection: Detection, width: nat, height: nat, wallClockMs: int): (r: seq<Delivery>)
    ensures |r| <= 1
    ensures |r| == 1 ==> && cb == Some(r[0].subscriber) && detection.Returned?
                         && r[0].frame.tsMs == wallClockMs
                         && r[0].frame.keypoints == MapKeypoints(FirstPoseKeypoints(detection.poses), width, height)
                         && 0 < |r[0].frame.keypoints| && r[0].frame.keypoints.Keys <= Joints
    ensures detection.Returned? && cb.Some? && MapKeypoints(FirstPoseKeypoints(detection.poses), width, height) != map[]
            ==> |r| == 1
    ensures detection.Returned? && MapKeypoints(FirstPoseKeypoints(detection.poses), width, height) == map[]
            ==> r == []
  {
    match detection
    case Threw => []
    case Returned(poses) =>
      var mapped := MapKeypoints(FirstPoseKeypoints(poses), width, height);
      if |mapped| > 0 && cb.Some? then [Delivery(cb.value, PoseFrame(wallClockMs, mapped))] else []
  }

  /** A delivered frame holds exactly the joints that some keypoint of the first pose names. */
  lemma EmittedJoints(cb: Option<nat>, detection: Detection, width: nat, height: nat, wallClockMs: int, j: string)
    requires |Emission(cb, detection, width, height, wallClockMs)| == 1
    ensures var kps := FirstPoseKeypoints(detection.poses);
            var frame := Emission(cb, detection, width, height, wallClockMs)[0].frame;
      j in frame.keypoints <==> exists i :: 0 <= i < |kps| && CanonicalName(kps[i]) == Some(j)
  {
    MappedJoints(FirstPoseKeypoints(detection.poses), width, height, j);
  }

  /** One observed paint-cycle callback: its time and the video's ready state. */
  datatype TickInput = TickInput(now: real, readyState: int)

  /** The times at which a sequence of ticks is accepted, starting from `lastTs`. */
  function AcceptedTimes(running: bool, lastTs: real, fps: real, ticks: seq<TickInput>): (times: seq<real>)
    requires fps > 0.0
    ensures |times| <= |ticks|
    decreases |ticks|
  {
    if ticks == [] then []
    else if Accepts(running, ticks[0].readyState, ticks[0].now, lastTs, fps) then
      [ticks[0].now] + AcceptedTimes(running, ticks[0].now, fps, ticks[1..])
    else AcceptedTimes(running, lastTs, fps, ticks[1..])
  }

  /** Accepted samples are at least one interval after the last one and after each other. */
  lemma {:induction false} AcceptedTicksSpaced(running: bool, lastTs: real, fps: real, ticks: seq<TickInput>)
    requires fps > 0.0
    ensures var a := AcceptedTimes(running, lastTs, fps, ticks);
      && (|a| > 0 ==> a[0] - lastTs >= 1000.0 / fps)
      && (forall i :: 0 < i < |a| ==> a[i] - a[i - 1] >= 1000.0 / fps)
    decreases |ticks|
  {
    if ticks != [] {
      var t := ticks[0];
      if Accepts(running, t.readyState, t.now, lastTs, fps) {
        AcceptedTicksSpaced(running, t.now, fps, ticks[1..]);
      } else {
        AcceptedTicksSpaced(running, lastTs, fps, ticks[1..]);
      }
    }
  }

  /** A sampler that is not running accepts no tick at all. */
  lemma {:induction false} StoppedAcceptsNothing(lastTs: real, fps: real, ticks: seq<TickInput>)
    requires fps > 0.0
    ensures AcceptedTimes(false, lastTs, fps, ticks) == []
    decreases |ticks|
  {
    if ticks != [] {
      StoppedAcceptsNothing(lastTs, fps, ticks[1..]);
    }
  }

  // ---------------------------------------------------------------------
  // The sampler object.
  // ---------------------------------------------------------------------

  class PoseClient {
    const fps: real
    var running: bool
    /** The handle the scheduler last returned. */
    var handle: int
    var lastTs: real
    /** The single subscriber, identified by a token. */
    var cb: Option<nat>
    /** A paint-cycle callback is scheduled and not cancelled. */
    var pending: bool
    /** How often the detector has been invoked. */
    var detectorCalls: nat
    /** Every frame handed to a subscriber so far, in order. */
    var emitted: seq<Delivery>

    ghost predicate Valid()
      reads this
    {
      MinFps <= fps <= MaxFps && (running ==> pending)
    }

    constructor (targetFps: Option<real>)
      ensures Valid()
      ensures fps == ClampFps(targetFps)
      ensures !running && handle == 0 && lastTs == 0.0 && cb == None
      ensures !pending && detectorCalls == 0 && emitted == []
    {
      fps := ClampFps(targetFps);
      running := false;
      handle := 0;
      lastTs := 0.0;
      cb := None;
      pending := false;
      detectorCalls := 0;
      emitted := [];
    }

    /**
     * One paint-cycle callback at time `now`; `frameHandle` is what the
     * scheduler returns when the loop re-arms itself.  The scheduler only
     * runs a callback that is scheduled and not cancelled.
     */
    method Tick(now: real, readyState: int, width: nat, height: nat, wallClockMs: int,
                detection: Detection, frameHandle: int)
      requires Valid() && pending
      modifies this
      ensures Valid()
      ensures pending && handle == frameHandle
      ensures running == old(running) && cb == old(cb)
      ensures Accepts(old(running), readyState, now, old(lastTs), fps) ==>
        && lastTs == now
        && detectorCalls == old(detectorCalls) + 1
        && emitted == old(emitted) + Emission(cb, detection, width, height, wallClockMs)
      ensures !Accepts(old(running), readyState, now, old(lastTs), fps) ==>
        lastTs == old(lastTs) && detectorCalls == old(detectorCalls) && emitted == old(emitted)
    {
      if !running || readyState < HaveCurrentData {
        handle := frameHandle;
        pending := true;
        return;
      }
      if now - lastTs < 1000.0 / fps {
        handle := frameHandle;
        pending := true;
        return;
      }
      lastTs := now;
      detectorCalls := detectorCalls + 1;
      match detection {
        case Threw =>
        case Returned(poses) =>
          var mapped := BuildKeypoints(FirstPoseKeypoints(poses), width, height);
          if |mapped| > 0 && cb.Some? {
            emitted := emitted + [Delivery(cb.value, PoseFrame(wallClockMs, mapped))];
          }
      }
      handle := frameHandle;
      pending := true;
    }

    /** Starts the loop unless it is already running. */
    method Start(frameHandle: int)
      requires Valid()
      modifies this
      ensures Valid() && running
      ensures old(running) ==> handle == old(handle) && pending == old(pending)
      ensures !old(running) ==> handle == frameHandle && pending
      ensures lastTs == old(lastTs) && cb == old(cb) && emitted == old(emitted) && detectorCalls == old(detectorCalls)
    {
      if running {
        return;
      }
      running := true;
      handle := frameHandle;
      pending := true;
    }

    /** Stops the loop and cancels the scheduled callback, if a handle was ever issued. */
    method Stop()
      requires Valid()
      modifies this
      ensures Valid() && !running
      ensures old(handle) != 0 ==> !pending
      ensures old(handle) == 0 ==> pending == old(pending)
      ensures handle == old(handle) && lastTs == old(lastTs) && cb == old(cb)
      ensures emitted == old(emitted) && detectorCalls == old(detectorCalls)
    {
      running := false;
      if handle != 0 {
        pending := false;
      }
    }

    /** Registers the subscriber, replacing any earlier one. */
    method OnFrame(subscriber: nat)
      requires Valid()
      modifies this
      ensures Valid() && cb == Some(subscriber)
      ensures running == old(running) && pending == old(pending) && handle == old(handle)
      ensures lastTs == old(lastTs) && emitted == old(emitted) && detectorCalls == old(detectorCalls)
    {
      cb := Some(subscriber);
    }

    /** Whether the loop is running; a running loop always has a callback scheduled. */
    method IsRunning() returns (r: bool)
      requires Valid()
      ensures r == running
      ensures r ==> pending
    {
      r := running;
    }
  }
}
