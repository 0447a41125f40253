/**
 * The server-side repetition counter: a three-phase state machine
 * (`idle`, `down`, `up`) driven by averaged joint angles with threshold
 * hysteresis and a dwell gate, counting one repetition on every
 * `down` -> `up` change and emitting coaching tips.
 *
 * The angles arrive already computed and smoothed: the map from angle name
 * (`elbow_l`, `knee_r`, `torso_incl`, ...) to an optional reading that the
 * counter's filter hands to the phase update.
 */
module RepCounting {
  import opened Wrappers
  import opened Schemas

  type Angles = map<string, Option<real>>

  const DefaultDwellMs: int := 150

  const PushUpDownEnter: real := 70.0
  const PushUpUpEnter: real := 160.0
  const TorsoInclineLimit: real := 15.0
  const ElbowLockedAt: real := 160.0

  const SquatKneeDown: real := 90.0
  const SquatHipDown: real := 100.0
  const SquatKneeUp: real := 160.0
  const SquatDepthGood: real := 80.0
  const SquatTooShallow: real := 120.0

  const BraceCore: string := "brace core (hips high)"
  const LockElbows: string := "lock elbows at top"
  const DepthGood: string := "depth is good; keep chest up"
  const GoDeeper: string := "go deeper toward parallel"

  datatype FSMState = FSMState(
    phase: Phase,
    lastChangeMs: int,
    lastDownMs: Option<int>,
    lastUpMs: Option<int>)

  /** The state a fresh counter starts in. */
  function InitialState(): (s: FSMState)
    ensures s.phase == Idle && s.lastChangeMs == 0 && s.lastDownMs == None && s.lastUpMs == None
  {
    FSMState(Idle, 0, None, None)
  }

  /** What the phase update reads and writes: the machine state and the count. */
  datatype Counter = Counter(state: FSMState, reps: int)

  datatype StepResult = StepResult(counter: Counter, feedback: seq<string>)

  /** `ang.get(key)`: a missing key reads as no reading. */
  function Get(ang: Angles, key: string): Option<real> {
    if key in ang then ang[key] else None
  }

  /** The readings that are present, left before right. */
  function Present(a: Option<real>, b: Option<real>): (r: seq<real>)
    ensures |r| <= 2
    ensures r == [] <==> a.None? && b.None?
    ensures a.Some? ==> r[0] == a.value
    ensures b.Some? ==> r[|r| - 1] == b.value
    ensures |r| == 2 <==> a.Some? && b.Some?
  {
    (if a.Some? then [a.value] else []) + (if b.Some? then [b.value] else [])
  }

  function Sum(xs: seq<real>): real {
    if xs == [] then 0.0 else Sum(xs[..|xs| - 1]) + xs[|xs| - 1]
  }

  function Mean(xs: seq<real>): real
    requires |xs| > 0
  {
    Sum(xs) / (|xs| as real)
  }

  /** The mean of the sides present: their average when both are, the one value otherwise. */
  lemma MeanOfSides(a: Option<real>, b: Option<real>)
    requires a.Some? || b.Some?
    ensures Mean(Present(a, b)) == if a.Some? && b.Some? then (a.value + b.value) / 2.0
                                   else if a.Some? then a.value else b.value
  {
    if a.Some? && b.Some? {
      var xs := [a.value, b.value];
      assert Present(a, b) == xs;
      assert [a.value][..0] == [];
      assert Sum([a.value]) == a.value;
      assert xs[..1] == [a.value];
      assert Sum(xs) == Sum(xs[..1]) + b.value;
    } else {
      var x := if a.Some? then a.value else b.value;
      assert Present(a, b) == [x];
      assert [x][..0] == [];
      assert Sum([x]) == x;
    }
  }

  /** The only phase changes the machine can make. */
  predicate AllowedChange(from: Phase, to: Phase) {
    || (from == Idle && to == Down)
    || (from == Up && to == Down)
    || (from == Down && to == Up)
  }

  /**
   * What one frame may do to the counter, whatever the exercise: the count
   * grows by at most one, and exactly on a `down` -> `up` change made while a
   * `down` time is recorded; a phase change is an allowed one, passes the
   * dwell gate and stamps the change time; no phase change means no change.
   */
  predicate LegalStep(c: Counter, r: Counter, dwellMs: int, t: int) {
    && (r.reps == c.reps || r.reps == c.reps + 1)
    && (r.reps == c.reps + 1 <==>
          c.state.phase == Down && r.state.phase == Up && c.state.lastDownMs.Some?)
    && (r.state.phase == c.state.phase ==> r == c)
    && (r.state.phase != c.state.phase ==>
          && AllowedChange(c.state.phase, r.state.phase)
          && t - c.state.lastChangeMs >= dwellMs
          && r.state.lastChangeMs == t)
    && (r.state.phase == Down && c.state.phase != Down ==>
          r.state.lastDownMs == Some(t) && r.state.lastUpMs == c.state.lastUpMs)
    && (r.state.phase == Up && c.state.phase != Up ==>
          r.state.lastUpMs == Some(t) && r.state.lastDownMs == c.state.lastDownMs)
  }

  /**
   * The hysteresis transition shared by both exercises: from `up` or `idle`
   * on the down condition, from `down` on the up condition, each only once
   * the dwell time since the last change has passed.
   */
  function Transition(c: Counter, dwellMs: int, downCond: bool, upCond: bool, t: int): (r: Counter)
    ensures LegalStep(c, r, dwellMs, t)
    ensures r.state.phase == Down && c.state.phase != Down ==> downCond
    ensures r.state.phase == Up && c.state.phase != Up ==> upCond
    ensures ((c.state.phase == Up || c.state.phase == Idle) && downCond && t - c.state.lastChangeMs >= dwellMs)
              ==> r.state.phase == Down
    ensures (c.state.phase == Down && upCond && t - c.state.lastChangeMs >= dwellMs)
              ==> r.state.phase == Up
  {
    var s := c.state;
    if (s.phase == Up || s.phase == Idle) && downCond then
      if t - s.lastChangeMs >= dwellMs then
        Counter(s.(phase := Down, lastChangeMs := t, lastDownMs := Some(t)), c.reps)
      else c
    else if s.phase == Down && upCond then
      if t - s.lastChangeMs >= dwellMs then
        Counter(s.(phase := Up, lastChangeMs := t, lastUpMs := Some(t)),
                if s.lastDownMs.Some? then c.reps + 1 else c.reps)
      else c
    else c
  }

  /** Push-up tips, judged against the phase held before this frame's transition. */
  function PushUpFeedback(incl: Option<real>, elbow: real, before: Phase): (fb: seq<string>)
    ensures BraceCore in fb <==> incl.Some? && incl.value > TorsoInclineLimit
    ensures LockElbows in fb <==> elbow < ElbowLockedAt && before == Up
    ensures forall i :: 0 <= i < |fb| ==> fb[i] in {BraceCore, LockElbows}
    ensures |fb| == 2 ==> fb == [BraceCore, LockElbows]
    ensures |fb| == (if BraceCore in fb then 1 else 0) + (if LockElbows in fb then 1 else 0)
  {
    (if incl.Some? && incl.value > TorsoInclineLimit then [BraceCore] else [])
    + (if elbow < ElbowLockedAt && before == Up then [LockElbows] else [])
  }

  /** Squat tips: at most one, depth praise taking precedence. */
  function SquatFeedback(knee: real, before: Phase): (fb: seq<string>)
    ensures |fb| <= 1
    ensures fb == [DepthGood] <==> knee < SquatDepthGood
    ensures fb == [GoDeeper] <==> knee >= SquatDepthGood && knee > SquatTooShallow && before == Down
    ensures fb == [] <==> knee >= SquatDepthGood && !(knee > SquatTooShallow && before == Down)
  {
    if knee < SquatDepthGood then [DepthGood]
    else if knee > SquatTooShallow && before == Down then [GoDeeper]
    else []
  }

  /** The push-up update for one frame at time `t`. */
  function PushUpStep(c: Counter, dwellMs: int, ang: Angles, t: int): (r: StepResult)
    ensures LegalStep(c, r.counter, dwellMs, t)
    ensures var elbows := Present(Get(ang, "elbow_l"), Get(ang, "elbow_r"));
      && (elbows == [] ==> r == StepResult(c, []))
      && (r.counter.state.phase == Down && c.state.phase != Down ==> elbows != [] && Mean(elbows) < PushUpDownEnter)
      && (r.counter.state.phase == Up && c.state.phase != Up ==> elbows != [] && Mean(elbows) > PushUpUpEnter)
      && (elbows != [] ==> r.feedback == PushUpFeedback(Get(ang, "torso_incl"), Mean(elbows), c.state.phase))
    ensures var elbows := Present(Get(ang, "elbow_l"), Get(ang, "elbow_r"));
      && (((c.state.phase == Up || c.state.phase == Idle) && elbows != [] && Mean(elbows) < PushUpDownEnter
             && t - c.state.lastChangeMs >= dwellMs)
            ==> r.counter.state.phase == Down)
      && ((c.state.phase == Down && elbows != [] && Mean(elbows) > PushUpUpEnter
             && t - c.state.lastChangeMs >= dwellMs)
            ==> r.counter.state.phase == Up)
  {
    var elbows := Present(Get(ang, "elbow_l"), Get(ang, "elbow_r"));
    if elbows == [] then StepResult(c, [])
    else
      var elbow := Mean(elbows);
      var next := Transition(c, dwellMs, elbow < PushUpDownEnter, elbow > PushUpUpEnter, t);
      StepResult(next, PushUpFeedback(Get(ang, "torso_incl"), elbow, c.state.phase))
  }

  /** The squat update for one frame at time `t`. */
  function SquatStep(c: Counter, dwellMs: int, ang: Angles, t: int): (r: StepResult)
    ensures LegalStep(c, r.counter, dwellMs, t)
    ensures var knees := Present(Get(ang, "knee_l"), Get(ang, "knee_r"));
            var hips := Present(Get(ang, "hip_l"), Get(ang, "hip_r"));
      && (knees == [] ==> r == StepResult(c, []))
      && (r.counter.state.phase == Down && c.state.phase != Down ==>
            knees != [] && Mean(knees) < SquatKneeDown && (hips == [] || Mean(hips) < SquatHipDown))
      && (r.counter.state.phase == Up && c.state.phase != Up ==> knees != [] && Mean(knees) > SquatKneeUp)
      && (knees != [] ==> r.feedback == SquatFeedback(Mean(knees), c.state.phase))
    ensures var knees := Present(Get(ang, "knee_l"), Get(ang, "knee_r"));
            var hips := Present(Get(ang, "hip_l"), Get(ang, "hip_r"));
      && (((c.state.phase == Up || c.state.phase == Idle)
             && knees != [] && Mean(knees) < SquatKneeDown && (hips == [] || Mean(hips) < SquatHipDown)
             && t - c.state.lastChangeMs >= dwellMs)
            ==> r.counter.state.phase == Down)
      && ((c.state.phase == Down && knees != [] && Mean(knees) > SquatKneeUp
             && t - c.state.lastChangeMs >= dwellMs)
            ==> r.counter.state.phase == Up)
  {
    var knees := Present(Get(ang, "knee_l"), Get(ang, "knee_r"));
    var hips := Present(Get(ang, "hip_l"), Get(ang, "hip_r"));
    if knees == [] then StepResult(c, [])
    else
      var knee := Mean(knees);
      var downCond := knee < SquatKneeDown && (hips == [] || Mean(hips) < SquatHipDown);
      var next := Transition(c, dwellMs, downCond, knee > SquatKneeUp, t);
      StepResult(next, SquatFeedback(knee, c.state.phase))
  }

  /** One frame for the configured exercise: the push-up rule or the squat rule. */
  function Step(exercise: Exercise, dwellMs: int, c: Counter, ang: Angles, t: int): (r: StepResult)
    ensures LegalStep(c, r.counter, dwellMs, t)
    ensures exercise == PushUp ==> r == PushUpStep(c, dwellMs, ang, t)
    ensures exercise == Squat ==> r == SquatStep(c, dwellMs, ang, t)
  {
    match exercise
    case PushUp => PushUpStep(c, dwellMs, ang, t)
    case Squat => SquatStep(c, dwellMs, ang, t)
  }

  // ---------------------------------------------------------------------
  // Runs: the counter fed a sequence of frames.
  // ---------------------------------------------------------------------

  /** One frame as the phase update sees it: its timestamp and its filtered angles. */
  datatype AngleFrame = AngleFrame(tsMs: int, angles: Angles)

  function Run(exercise: Exercise, dwellMs: int, c: Counter, frames: seq<AngleFrame>): Counter
    decreases |frames|
  {
    if frames == [] then c
    else Run(exercise, dwellMs, Step(exercise, dwellMs, c, frames[0].angles, frames[0].tsMs).counter, frames[1..])
  }

  /** How many frames of the run move the phase from `down` to `up`. */
  function DownUpChanges(exercise: Exercise, dwellMs: int, c: Counter, frames: seq<AngleFrame>): nat
    decreases |frames|
  {
    if frames == [] then 0
    else
      var next := Step(exercise, dwellMs, c, frames[0].angles, frames[0].tsMs).counter;
      (if c.state.phase == Down && next.state.phase == Up then 1 else 0)
      + DownUpChanges(exercise, dwellMs, next, frames[1..])
  }

  /**
   * The bookkeeping every reachable state keeps: `idle` has seen no change,
   * any other phase has a recorded `down` time, and `up` a recorded `up` time.
   */
  predicate Inv(c: Counter) {
    && (c.state.phase == Idle ==> c.state.lastDownMs.None? && c.state.lastUpMs.None?)
    && (c.state.phase != Idle ==> c.state.lastDownMs.Some?)
    && (c.state.phase == Up ==> c.state.lastUpMs.Some?)
  }

  lemma InitialInv()
    ensures Inv(Counter(InitialState(), 0))
  {
  }

  lemma {:induction false} RunKeepsInv(exercise: Exercise, dwellMs: int, c: Counter, frames: seq<AngleFrame>)
    requires Inv(c)
    ensures Inv(Run(exercise, dwellMs, c, frames))
    decreases |frames|
  {
    if frames != [] {
      var next := Step(exercise, dwellMs, c, frames[0].angles, frames[0].tsMs).counter;
      RunKeepsInv(exercise, dwellMs, next, frames[1..]);
    }
  }

  /** Over any run the count never decreases and grows by at most one per frame. */
  lemma {:induction false} RunRepsBounded(exercise: Exercise, dwellMs: int, c: Counter, frames: seq<AngleFrame>)
    ensures c.reps <= Run(exercise, dwellMs, c, frames).reps <= c.reps + |frames|
    decreases |frames|
  {
    if frames != [] {
      var next := Step(exercise, dwellMs, c, frames[0].angles, frames[0].tsMs).counter;
      RunRepsBounded(exercise, dwellMs, next, frames[1..]);
    }
  }

  /** From a state that keeps `Inv`, the count grows by exactly the number of `down` -> `up` changes. */
  lemma {:induction false} RunCountsDownUpChanges(exercise: Exercise, dwellMs: int, c: Counter, frames: seq<AngleFrame>)
    requires Inv(c)
    ensures Run(exercise, dwellMs, c, frames).reps == c.reps + DownUpChanges(exercise, dwellMs, c, frames)
    decreases |frames|
  {
    if frames != [] {
      var next := Step(exercise, dwellMs, c, frames[0].angles, frames[0].tsMs).counter;
      RunCountsDownUpChanges(exercise, dwellMs, next, frames[1..]);
    }
  }

  /** A fresh counter's count is the number of `down` -> `up` changes it has seen. */
  lemma FreshCounterCountsDownUpChanges(exercise: Exercise, dwellMs: int, frames: seq<AngleFrame>)
    ensures var start := Counter(InitialState(), 0);
            Run(exercise, dwellMs, start, frames).reps == DownUpChanges(exercise, dwellMs, start, frames)
  {
    RunCountsDownUpChanges(exercise, dwellMs, Counter(InitialState(), 0), frames);
  }

  /** Once the machine has left `idle` it never returns there. */
  lemma {:induction false} RunNeverReturnsToIdle(exercise: Exercise, dwellMs: int, c: Counter, frames: seq<AngleFrame>)
    requires c.state.phase != Idle
    ensures Run(exercise, dwellMs, c, frames).state.phase != Idle
    decreases |frames|
  {
    if frames != [] {
      var next := Step(exercise, dwellMs, c, frames[0].angles, frames[0].tsMs).counter;
      RunNeverReturnsToIdle(exercise, dwellMs, next, frames[1..]);
    }
  }

  /** From `down`, elbows straightened past the up threshold once the dwell has passed count one rep. */
  lemma PushUpRepCounted(c: Counter, dwellMs: int, ang: Angles, t: int)
    requires Inv(c) && c.state.phase == Down && t - c.state.lastChangeMs >= dwellMs
    requires var elbows := Present(Get(ang, "elbow_l"), Get(ang, "elbow_r"));
      elbows != [] && Mean(elbows) > PushUpUpEnter
    ensures var r := Step(PushUp, dwellMs, c, ang, t).counter;
      r.reps == c.reps + 1 && r.state.phase == Up
  {
  }

  /** From `down`, knees straightened past the up threshold once the dwell has passed count one rep. */
  lemma SquatRepCounted(c: Counter, dwellMs: int, ang: Angles, t: int)
    requires Inv(c) && c.state.phase == Down && t - c.state.lastChangeMs >= dwellMs
    requires var knees := Present(Get(ang, "knee_l"), Get(ang, "knee_r"));
      knees != [] && Mean(knees) > SquatKneeUp
    ensures var r := Step(Squat, dwellMs, c, ang, t).counter;
      r.reps == c.reps + 1 && r.state.phase == Up
  {
  }

  /** A push-up: elbows bent to 60 degrees, then straightened to 170, 200 ms apart, is one rep. */
  lemma OnePushUp()
    ensures var bent := AngleFrame(200, map["elbow_l" := Some(60.0), "elbow_r" := Some(60.0)]);
            var straight := AngleFrame(400, map["elbow_l" := Some(170.0), "elbow_r" := None]);
            var r := Run(PushUp, DefaultDwellMs, Counter(InitialState(), 0), [bent, straight]);
            r.reps == 1 && r.state.phase == Up && r.state.lastChangeMs == 400
  {
    var bent := AngleFrame(200, map["elbow_l" := Some(60.0), "elbow_r" := Some(60.0)]);
    var straight := AngleFrame(400, map["elbow_l" := Some(170.0), "elbow_r" := None]);
    var start := Counter(InitialState(), 0);
    var afterBent := Step(PushUp, DefaultDwellMs, start, bent.angles, bent.tsMs).counter;
    assert Present(Get(bent.angles, "elbow_l"), Get(bent.angles, "elbow_r")) == [60.0, 60.0];
    assert [60.0, 60.0][..1] == [60.0] && [60.0][..0] == [];
    assert Sum([60.0]) == 60.0;
    assert Sum([60.0, 60.0]) == 120.0;
    assert afterBent.state.phase == Down;
    var afterStraight := Step(PushUp, DefaultDwellMs, afterBent, straight.angles, straight.tsMs).counter;
    assert Present(Get(straight.angles, "elbow_l"), Get(straight.angles, "elbow_r")) == [170.0];
    assert [170.0][..0] == [];
    assert Sum([170.0]) == 170.0;
    assert afterStraight.state.phase == Up;
    assert [bent, straight][1..] == [straight] && [straight][1..] == [];
    assert Run(PushUp, DefaultDwellMs, start, [bent, straight]) == Run(PushUp, DefaultDwellMs, afterBent, [straight]);
    assert Run(PushUp, DefaultDwellMs, afterBent, [straight]) == afterStraight;
  }

  // ---------------------------------------------------------------------
  // The counter object.
  // ---------------------------------------------------------------------

  class RepCounter {
    const exercise: Exercise
    const dwellMs: int
    var state: FSMState
    var reps: int

    /** The part of the object the phase update works on. */
    function Snapshot(): Counter
      reads this
    {
      Counter(state, reps)
    }

    constructor (exercise: Exercise, dwellMs: int := DefaultDwellMs)
      ensures this.exercise == exercise && this.dwellMs == dwellMs
      ensures state == InitialState() && reps == 0
      ensures Inv(Snapshot())
    {
      this.exercise := exercise;
      this.dwellMs := dwellMs;
      state := InitialState();
      reps := 0;
    }

    /** The hysteresis transition, applied in place. */
    method MovePhase(downCond: bool, upCond: bool, t: int)
      modifies this
      ensures Snapshot() == Transition(old(Snapshot()), dwellMs, downCond, upCond, t)
    {
      var nowPhase := state.phase;
      if (nowPhase == Up || nowPhase == Idle) && downCond {
        if t - state.lastChangeMs >= dwellMs {
          state := state.(phase := Down, lastChangeMs := t, lastDownMs := Some(t));
        }
      } else if nowPhase == Down && upCond {
        if t - state.lastChangeMs >= dwellMs {
          state := state.(phase := Up, lastChangeMs := t, lastUpMs := Some(t));
          if state.lastDownMs.Some? {
            reps := reps + 1;
          }
        }
      }
    }

    method UpdatePhasePushUp(ang: Angles, t: int) returns (fb: seq<string>)
      modifies this
      ensures Snapshot() == PushUpStep(old(Snapshot()), dwellMs, ang, t).counter
      ensures fb == PushUpStep(old(Snapshot()), dwellMs, ang, t).feedback
    {
      fb := [];
      var elbows := Present(Get(ang, "elbow_l"), Get(ang, "elbow_r"));
      if elbows == [] {
        return;
      }
      var elbow := Mean(elbows);
      var nowPhase := state.phase;
      MovePhase(elbow < PushUpDownEnter, elbow > PushUpUpEnter, t);
      var incl := Get(ang, "torso_incl");
      if incl.Some? && incl.value > TorsoInclineLimit {
        fb := fb + [BraceCore];
      }
      if elbow < ElbowLockedAt && nowPhase == Up {
        fb := fb + [LockElbows];
      }
    }

    method UpdatePhaseSquat(ang: Angles, t: int) returns (fb: seq<string>)
      modifies this
      ensures Snapshot() == SquatStep(old(Snapshot()), dwellMs, ang, t).counter
      ensures fb == SquatStep(old(Snapshot()), dwellMs, ang, t).feedback
    {
      fb := [];
      var knees := Present(Get(ang, "knee_l"), Get(ang, "knee_r"));
      var hips := Present(Get(ang, "hip_l"), Get(ang, "hip_r"));
      if knees == [] {
        return;
      }
      var knee := Mean(knees);
      var downCond := knee < SquatKneeDown && (hips == [] || Mean(hips) < SquatHipDown);
      var nowPhase := state.phase;
      ghost var before := Snapshot();
      MovePhase(downCond, knee > SquatKneeUp, t);
      if knee < SquatDepthGood {
        fb := fb + [DepthGood];
      } else if knee > SquatTooShallow && nowPhase == Down {
        fb := fb + [GoDeeper];
      }
      assert fb == SquatFeedback(knee, nowPhase);
      assert SquatStep(before, dwellMs, ang, t) == StepResult(Snapshot(), fb);
    }

    /** One received frame: update the phase from its filtered angles and report the new state. */
    method OnFrame(tsMs: int, filtered: Angles) returns (tick: Tick)
      modifies this
      ensures Snapshot() == Step(exercise, dwellMs, old(Snapshot()), filtered, tsMs).counter
      ensures tick == Tick(reps, state.phase, Step(exercise, dwellMs, old(Snapshot()), filtered, tsMs).feedback)
      ensures old(reps) <= reps <= old(reps) + 1
      ensures old(Inv(Snapshot())) ==> Inv(Snapshot())
    {
      ghost var step := Step(exercise, dwellMs, Snapshot(), filtered, tsMs);
      var fb: seq<string>;
      if exercise == PushUp {
        fb := UpdatePhasePushUp(filtered, tsMs);
      } else {
        fb := UpdatePhaseSquat(filtered, tsMs);
      }
      assert Snapshot() == step.counter && fb == step.feedback;
      tick := Tick(reps, state.phase, fb);
    }
  }
}
