/**
 * The record shapes the coaching engine passes around: the plan exercise and
 * plan day, the constraint set and variant catalog entries used by
 * substitution, the blueprint entries, and the user-facing enumerations
 * (goal, equipment type, location, training archetype) with the
 * self-reported baseline used for cold starts.
 */
module Types {
  import opened Wrappers

  datatype Goal = Muscle | Strength | FatLoss | General

  /** The equipment an exercise needs; `Running` is the kind sessions of the running archetype carry. */
  datatype EquipmentType = Barbell | Dumbbell | Machine | Bodyweight | Band | Unknown | Running {
    /** The string the equipment type is stored and compared as. */
    function Name(): string {
      match this
      case Barbell => "barbell"
      case Dumbbell => "dumbbell"
      case Machine => "machine"
      case Bodyweight => "bodyweight"
      case Band => "band"
      case Unknown => "unknown"
      case Running => "running"
    }
  }

  datatype Location = Gym | Home | Outdoor

  datatype Archetype = Calisthenics | Hypertrophy | Weightlifting | Running

  /**
   * Self-reported reference numbers, each possibly missing. Times are whole
   * seconds, distances whole metres, rep maxima whole repetitions and loads
   * kilograms.
   */
  datatype Baseline = Baseline(
    fivekTimeSec: Option<int>,
    cooperM: Option<int>,
    easyPaceSecPerKm: Option<int>,
    pullupsMax: Option<int>,
    pushupsMax: Option<int>,
    dipsMax: Option<int>,
    frontSquat3rmKg: Option<real>,
    powerClean3rmKg: Option<real>,
    strictPress5rmKg: Option<real>,
    benchPress5rmKg: Option<real>,
    squat5rmKg: Option<real>,
    row8rmKg: Option<real>)

  const EmptyBaseline: Baseline :=
    Baseline(None, None, None, None, None, None, None, None, None, None, None, None)

  /** One planned exercise; `pattern` and `notes` are "" when absent. */
  datatype PlanExercise = PlanExercise(
    exerciseKey: string,
    exerciseName: string,
    pattern: string,
    equipmentType: EquipmentType,
    sets: string,
    reps: string,
    targetRepsMin: int,
    targetRepsMax: int,
    notes: string)

  datatype PlanDay = PlanDay(day: string, focus: string, exercises: seq<PlanExercise>)

  datatype ConstraintSet = ConstraintSet(
    injuries: seq<string>,
    equipment: seq<string>,
    location: Location,
    banned: seq<string>,
    preferred: seq<string>,
    timeCapMinutes: Option<int>)

  datatype VariantExercise = VariantExercise(
    baseKey: string,
    variantKey: string,
    name: string,
    equipmentType: EquipmentType,
    tags: seq<string>,
    priority: int)

  /** One logged set of one exercise; `createdAt` is the log's timestamp. */
  datatype LogEntry = LogEntry(
    weightKg: Option<real>,
    reps: int,
    rpe: Option<real>,
    createdAt: int,
    sessionId: string)

  /** `logsByExercise[key] ?? []`. */
  function LogsFor(logsByExercise: map<string, seq<LogEntry>>, key: string): seq<LogEntry> {
    if key in logsByExercise then logsByExercise[key] else []
  }

  /**
   * A blueprint entry: the (possibly substituted) exercise with the
   * recommendation merged in. `progressionNote` and `targetPace` are "" when
   * absent.
   */
  datatype BlueprintExercise = BlueprintExercise(
    exercise: PlanExercise,
    recommendedWeight: Option<real>,
    recommendedReps: string,
    recommendedPace: Option<int>,
    progressionNote: string,
    targetPace: string)

  datatype SessionBlueprint = SessionBlueprint(
    cycleWeek: int,
    deload: bool,
    day: string,
    focus: string,
    exercises: seq<BlueprintExercise>)

  /** `Math.min` on integers. */
  function Min(a: int, b: int): int {
    if a <= b then a else b
  }

  /** `Math.max` on integers. */
  function Max(a: int, b: int): int {
    if a >= b then a else b
  }
}
