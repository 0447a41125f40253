/**
 * The backend's pydantic domain models: the wire types of the streaming
 * session (`PosePoint`, `PoseFrame`, `Tick`) and the plan-generation types,
 * each with a validity predicate for its constrained fields and a
 * constructor function that fills in the declared defaults.
 */
module Schemas {
  import opened Wrappers

  datatype Level = Beginner | Intermediate | Advanced
  datatype Goal = FatLoss | MuscleGain | Endurance | GeneralFitness
  datatype Phase = Idle | Down | Up
  /** The exercise selector of a session (`push_up` | `squat`). */
  datatype Exercise = PushUp | Squat

  /** Wire spelling of each enumeration value; each is accepted back by its parser. */
  function LevelName(l: Level): (s: string)
    ensures ParseLevel(s) == Some(l)
  {
    match l
    case Beginner => "beginner"
    case Intermediate => "intermediate"
    case Advanced => "advanced"
  }

  /** Validation of the `Level` literal: exactly the three spellings are accepted. */
  function ParseLevel(s: string): (r: Option<Level>)
    ensures r.Some? <==> s in {"beginner", "intermediate", "advanced"}
  {
    if s == "beginner" then Some(Beginner)
    else if s == "intermediate" then Some(Intermediate)
    else if s == "advanced" then Some(Advanced)
    else None
  }

  function GoalName(g: Goal): (s: string)
    ensures ParseGoal(s) == Some(g)
  {
    match g
    case FatLoss => "fat_loss"
    case MuscleGain => "muscle_gain"
    case Endurance => "endurance"
    case GeneralFitness => "general_fitness"
  }

  /** Validation of the `Goal` literal: exactly the four spellings are accepted. */
  function ParseGoal(s: string): (r: Option<Goal>)
    ensures r.Some? <==> s in {"fat_loss", "muscle_gain", "endurance", "general_fitness"}
  {
    if s == "fat_loss" then Some(FatLoss)
    else if s == "muscle_gain" then Some(MuscleGain)
    else if s == "endurance" then Some(Endurance)
    else if s == "general_fitness" then Some(GeneralFitness)
    else None
  }

  function PhaseName(p: Phase): (s: string)
    ensures ParsePhase(s) == Some(p)
  {
    match p
    case Idle => "idle"
    case Down => "down"
    case Up => "up"
  }

  /** Validation of `Tick.phase`: only `idle`, `down` and `up` are accepted. */
  function ParsePhase(s: string): (r: Option<Phase>)
    ensures r.Some? <==> s in {"idle", "down", "up"}
  {
    if s == "idle" then Some(Idle)
    else if s == "down" then Some(Down)
    else if s == "up" then Some(Up)
    else None
  }

  function ExerciseName(e: Exercise): (s: string)
    ensures ParseExercise(s) == Some(e)
  {
    match e
    case PushUp => "push_up"
    case Squat => "squat"
  }

  function ParseExercise(s: string): (r: Option<Exercise>)
    ensures r.Some? <==> s in {"push_up", "squat"}
  {
    if s == "push_up" then Some(PushUp)
    else if s == "squat" then Some(Squat)
    else None
  }

  datatype UserGoal = UserGoal(
    goal: Goal,
    level: Level,
    constraints: Option<string>,
    equipment: seq<string>,
    daysPerWeek: int)
  {
    /** `days_per_week` is constrained to 1..7. */
    predicate Valid() {
      1 <= daysPerWeek <= 7
    }
  }

  /** A `UserGoal` built from its required fields only; the defaults make it valid. */
  function NewUserGoal(goal: Goal, level: Level): (u: UserGoal)
    ensures u.Valid() && u.goal == goal && u.level == level
    ensures u.daysPerWeek == 3 && u.equipment == [] && u.constraints == None
  {
    UserGoal(goal, level, None, [], 3)
  }

  datatype PlanExercise = PlanExercise(
    name: string,
    sets: int,
    reps: string,
    restSeconds: int,
    imageUrl: Option<string>,
    explanation: Option<string>)
  {
    /** `sets >= 1` and `rest_seconds >= 0`. */
    predicate Valid() {
      sets >= 1 && restSeconds >= 0
    }
  }

  function NewPlanExercise(name: string): (e: PlanExercise)
    ensures e.Valid() && e.name == name
    ensures e.sets == 3 && e.reps == "10-12" && e.restSeconds == 60
    ensures e.imageUrl == None && e.explanation == None
  {
    PlanExercise(name, 3, "10-12", 60, None, None)
  }

  datatype PlanDay = PlanDay(day: int, focus: Option<string>, exercises: seq<PlanExercise>)
  {
    /** `day` lies in 1..7 and every nested exercise is itself valid. */
    predicate Valid() {
      && 1 <= day <= 7
      && forall i :: 0 <= i < |exercises| ==> exercises[i].Valid()
    }
  }

  /** A plan day with no focus and no exercises; valid exactly when `day` is in 1..7. */
  function NewPlanDay(day: int): (d: PlanDay)
    ensures d.day == day && d.focus == None && d.exercises == []
    ensures d.Valid() <==> 1 <= day <= 7
  {
    PlanDay(day, None, [])
  }

  /** One landmark: normalised position and an optional confidence. */
  datatype PosePoint = PosePoint(x: real, y: real, score: Option<real>)

  /** One sample: a millisecond timestamp and the detected joints by name. */
  datatype PoseFrame = PoseFrame(tsMs: int, keypoints: map<string, PosePoint>)

  /** The server's answer to one frame. */
  datatype Tick = Tick(repCount: int, phase: Phase, feedback: seq<string>)

  function DefaultTick(): (t: Tick)
    ensures t.repCount == 0 && t.phase == Idle && t.feedback == []
  {
    Tick(0, Idle, [])
  }

  datatype ReferenceTemplate = ReferenceTemplate(
    id: string,
    exerciseId: string,
    name: string,
    fps: int,
    phaseLabels: seq<string>,
    jointAngles: seq<seq<real>>)

  /** A template from its required fields; `id` comes from the uuid factory, given here. */
  function NewReferenceTemplate(id: string, exerciseId: string, name: string): (t: ReferenceTemplate)
    ensures t.id == id && t.exerciseId == exerciseId && t.name == name
    ensures t.fps == 30 && t.phaseLabels == [] && t.jointAngles == []
  {
    ReferenceTemplate(id, exerciseId, name, 30, [], [])
  }
}
