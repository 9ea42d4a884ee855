/**
 * lib/coach/generateBlueprint.ts: the coach's per-session orchestration. Each
 * planned exercise is substituted when needed, swapped on a plateau, and
 * given a pace (running archetype) or a load recommendation, deloaded in the
 * deload week.
 */
module Blueprint {
  import opened Wrappers
  import opened Types
  import opened Text
  import Seqs
  import Sorting
  import Progression
  import Cycle
  import Plateau
  import Substitute
  import Running

  /** Another variant of the raw exercise's own family than the current one. */
  predicate IsSwapCandidate(v: VariantExercise, raw: PlanExercise, current: PlanExercise) {
    v.baseKey == raw.exerciseKey && v.variantKey != current.exerciseKey
  }

  /** The plateau swap: the lowest-priority such variant, if any. */
  function PlateauSwap(raw: PlanExercise, current: PlanExercise, catalog: seq<VariantExercise>): (swap: Option<VariantExercise>)
    ensures swap.Some? <==> exists i :: 0 <= i < |catalog| && IsSwapCandidate(catalog[i], raw, current)
    ensures swap.Some? ==>
      && swap.value in catalog && IsSwapCandidate(swap.value, raw, current)
      && forall i :: 0 <= i < |catalog| && IsSwapCandidate(catalog[i], raw, current) ==>
           swap.value.priority <= catalog[i].priority
  {
    var cands := Seqs.Filter(catalog, (v: VariantExercise) => IsSwapCandidate(v, raw, current));
    var ranked := Sorting.SortBy(cands, Substitute.PriorityRank);
    if ranked == [] then
      None
    else
      assert ranked[0] in multiset(cands);
      assert forall i :: 0 <= i < |catalog| && IsSwapCandidate(catalog[i], raw, current) ==>
        ranked[0].priority <= catalog[i].priority by {
        forall i | 0 <= i < |catalog| && IsSwapCandidate(catalog[i], raw, current)
          ensures ranked[0].priority <= catalog[i].priority
        {
          Sorting.SortByHeadIsLeast(cands, Substitute.PriorityRank, catalog[i]);
        }
      }
      Some(ranked[0])
  }

  /** `Plateau détecté: bascule vers {name}.` */
  function PlateauNote(name: string): string {
    "Plateau détecté: bascule vers " + name + "."
  }

  /** The exercise the session prescribes: the substitute, swapped again on a plateau. */
  function ChosenExercise(
    raw: PlanExercise, constraints: ConstraintSet, catalog: seq<VariantExercise>, isPlateau: bool): (e: PlanExercise)
    ensures e.sets == raw.sets && e.reps == raw.reps && e.pattern == raw.pattern
      && e.targetRepsMin == raw.targetRepsMin && e.targetRepsMax == raw.targetRepsMax
    ensures !isPlateau ==> e == Substitute.PickSubstitute(raw, constraints, catalog)
    ensures isPlateau && e != Substitute.PickSubstitute(raw, constraints, catalog) ==>
      var s := Substitute.PickSubstitute(raw, constraints, catalog);
      exists v :: v in catalog && IsSwapCandidate(v, raw, s) && e.exerciseKey == v.variantKey
        && e.exerciseName == v.name && e.equipmentType == v.equipmentType
        && e.notes == AppendNote(s.notes, PlateauNote(v.name))
        && forall u :: u in catalog && IsSwapCandidate(u, raw, s) ==> v.priority <= u.priority
  {
    var substituted := Substitute.PickSubstitute(raw, constraints, catalog);
    if !isPlateau then substituted
    else
      match PlateauSwap(raw, substituted, catalog)
      case None => substituted
      case Some(swap) =>
        substituted.(exerciseKey := swap.variantKey, exerciseName := swap.name, equipmentType := swap.equipmentType,
                     notes := AppendNote(substituted.notes, PlateauNote(swap.name)))
  }

  const EasyRunNote: string := "Courir en aisance respiratoire."

  /** One entry of the blueprint; `formatPaceRange` renders a pace as text. */
  function BlueprintEntry(
    raw: PlanExercise, archetype: Archetype, zones: Running.Zones, goal: Goal,
    logsByExercise: map<string, seq<LogEntry>>, constraints: ConstraintSet,
    catalog: seq<VariantExercise>, cycleWeek: int, formatPaceRange: Option<int> -> string): (b: BlueprintExercise)
    ensures b.recommendedReps == Progression.RepsRange(raw.targetRepsMin, raw.targetRepsMax)
    ensures b.exercise.reps == raw.reps && b.exercise.targetRepsMin == raw.targetRepsMin
      && b.exercise.targetRepsMax == raw.targetRepsMax && b.exercise.pattern == raw.pattern
    ensures archetype == Archetype.Running || !Cycle.IsDeloadWeek(cycleWeek) ==> b.exercise.sets == raw.sets
    ensures archetype != Archetype.Running && Cycle.IsDeloadWeek(cycleWeek) ==>
      Cycle.NormalizeSets(b.exercise.sets) == Max(2, Cycle.NormalizeSets(raw.sets) - 1)
    ensures archetype == Archetype.Running ==>
      && b.recommendedWeight.None?
      && b.recommendedPace == Running.RecommendPaceForWorkout(b.exercise.exerciseKey, zones, cycleWeek)
    ensures archetype != Archetype.Running ==> b.recommendedPace.None? && b.targetPace == ""
    ensures b.recommendedWeight.Some? ==> Progression.IsHalfMultiple(b.recommendedWeight.value)
    ensures var logs := LogsFor(logsByExercise, raw.exerciseKey);
      var plateau := Plateau.DetectPlateau(raw.exerciseKey, logs, raw.targetRepsMin, raw.targetRepsMax);
      var e := ChosenExercise(raw, constraints, catalog, plateau.isPlateau);
      var rec := Progression.RecommendFromLogs(goal, logs, raw.targetRepsMin, raw.targetRepsMax, e.equipmentType);
      && b.exercise.exerciseKey == e.exerciseKey && b.exercise.exerciseName == e.exerciseName
      && b.exercise.equipmentType == e.equipmentType
      && (archetype == Archetype.Running ==>
            var pace := Running.RecommendPaceForWorkout(e.exerciseKey, zones, cycleWeek);
            b.exercise == e && b.targetPace == formatPaceRange(pace)
            && b.progressionNote == (if Running.TruthyInt(pace) then "Allure cible " + formatPaceRange(pace) else EasyRunNote))
      && (archetype != Archetype.Running && !Cycle.IsDeloadWeek(cycleWeek) ==>
            b.exercise == e && b.recommendedWeight == rec.recommendedWeight
            && b.progressionNote == AppendNote(rec.progressionNote, if plateau.isPlateau then plateau.reason else ""))
      && (archetype != Archetype.Running && Cycle.IsDeloadWeek(cycleWeek) ==>
            var d := Cycle.ApplyDeload(raw.sets, rec);
            b.exercise == e.(sets := d.sets, notes := AppendNote(e.notes, d.note))
            && b.recommendedWeight == d.recommendedWeight
            && b.progressionNote == d.progressionNote && b.recommendedReps == rec.recommendedReps)
  {
    var logs := LogsFor(logsByExercise, raw.exerciseKey);
    var plateau := Plateau.DetectPlateau(raw.exerciseKey, logs, raw.targetRepsMin, raw.targetRepsMax);
    var exercise := ChosenExercise(raw, constraints, catalog, plateau.isPlateau);
    if archetype == Archetype.Running then
      var pace := Running.RecommendPaceForWorkout(exercise.exerciseKey, zones, cycleWeek);
      var note := if Running.TruthyInt(pace) then "Allure cible " + formatPaceRange(pace) else EasyRunNote;
      BlueprintExercise(exercise, None, Progression.RepsRange(exercise.targetRepsMin, exercise.targetRepsMax),
        pace, note, formatPaceRange(pace))
    else
      var rec := Progression.RecommendFromLogs(goal, logs, exercise.targetRepsMin, exercise.targetRepsMax, exercise.equipmentType);
      if !Cycle.IsDeloadWeek(cycleWeek) then
        var note := AppendNote(rec.progressionNote, if plateau.isPlateau then plateau.reason else "");
        BlueprintExercise(exercise, rec.recommendedWeight, rec.recommendedReps, None, note, "")
      else
        var deloaded := Cycle.ApplyDeload(exercise.sets, rec);
        BlueprintExercise(
          exercise.(sets := deloaded.sets, notes := AppendNote(exercise.notes, deloaded.note)),
          deloaded.recommendedWeight, rec.recommendedReps, None, deloaded.progressionNote, "")
  }

  /** `generateSessionBlueprint(input)`: one entry per planned exercise, in plan order. */
  function GenerateSessionBlueprint(
    planDay: PlanDay, archetype: Archetype, baseline: Baseline, goal: Goal,
    logsByExercise: map<string, seq<LogEntry>>, constraints: ConstraintSet,
    catalog: seq<VariantExercise>, cycleWeek: int, formatPaceRange: Option<int> -> string): (bp: SessionBlueprint)
    ensures bp.cycleWeek == cycleWeek && bp.deload == Cycle.IsDeloadWeek(cycleWeek)
    ensures bp.day == planDay.day && bp.focus == planDay.focus
    ensures |bp.exercises| == |planDay.exercises|
    ensures forall i :: 0 <= i < |bp.exercises| ==>
      bp.exercises[i] == BlueprintEntry(planDay.exercises[i], archetype, Running.BaselineToZones(baseline), goal,
        logsByExercise, constraints, catalog, cycleWeek, formatPaceRange)
  {
    var zones := Running.BaselineToZones(baseline);
    var exercises := seq(|planDay.exercises|, i requires 0 <= i < |planDay.exercises| =>
      BlueprintEntry(planDay.exercises[i], archetype, zones, goal, logsByExercise, constraints, catalog, cycleWeek, formatPaceRange));
    SessionBlueprint(cycleWeek, Cycle.IsDeloadWeek(cycleWeek), planDay.day, planDay.focus, exercises)
  }

  /**
   * Outside the running archetype and the deload week, a detected plateau is
   * reported in the progression note, after the recommendation's own note.
   */
  lemma PlateauReasonIsReported(
    raw: PlanExercise, archetype: Archetype, zones: Running.Zones, goal: Goal,
    logsByExercise: map<string, seq<LogEntry>>, constraints: ConstraintSet,
    catalog: seq<VariantExercise>, cycleWeek: int, formatPaceRange: Option<int> -> string)
    requires archetype != Archetype.Running && !Cycle.IsDeloadWeek(cycleWeek)
    requires Plateau.DetectPlateau(raw.exerciseKey, LogsFor(logsByExercise, raw.exerciseKey),
      raw.targetRepsMin, raw.targetRepsMax).isPlateau
    ensures var note := BlueprintEntry(raw, archetype, zones, goal, logsByExercise, constraints, catalog,
      cycleWeek, formatPaceRange).progressionNote;
      |note| >= |Plateau.PlateauReason| && note[|note| - |Plateau.PlateauReason|..] == Plateau.PlateauReason
  {
  }

  /**
   * Without a plateau and with nothing to substitute, the planned exercise is
   * prescribed as planned.
   */
  lemma PlannedExerciseKept(
    raw: PlanExercise, archetype: Archetype, zones: Running.Zones, goal: Goal,
    logsByExercise: map<string, seq<LogEntry>>, constraints: ConstraintSet,
    catalog: seq<VariantExercise>, cycleWeek: int, formatPaceRange: Option<int> -> string)
    requires !Substitute.NeedsSubstitute(raw, constraints)
    requires !Plateau.DetectPlateau(raw.exerciseKey, LogsFor(logsByExercise, raw.exerciseKey),
      raw.targetRepsMin, raw.targetRepsMax).isPlateau
    requires archetype == Archetype.Running || !Cycle.IsDeloadWeek(cycleWeek)
    ensures BlueprintEntry(raw, archetype, zones, goal, logsByExercise, constraints, catalog,
      cycleWeek, formatPaceRange).exercise == raw
  {
  }

  /** On a plateau with a swap available, the session moves off the current exercise. */
  lemma PlateauSwapChangesExercise(
    raw: PlanExercise, constraints: ConstraintSet, catalog: seq<VariantExercise>)
    requires exists i ::
      && 0 <= i < |catalog|
      && IsSwapCandidate(catalog[i], raw, Substitute.PickSubstitute(raw, constraints, catalog))
    ensures var current := Substitute.PickSubstitute(raw, constraints, catalog);
      var e := ChosenExercise(raw, constraints, catalog, true);
      e.exerciseKey != current.exerciseKey
      && exists v :: v in catalog && v.baseKey == raw.exerciseKey && e == current.(
           exerciseKey := v.variantKey, exerciseName := v.name, equipmentType := v.equipmentType,
           notes := AppendNote(current.notes, PlateauNote(v.name)))
  {
  }
}
