/**
 * lib/session/nextSession.ts: the next session as the session screen builds
 * it. With logs an exercise gets the progression engine's recommendation
 * (deloaded in the deload week); without logs it gets a cold-start point
 * derived from the self-reported baseline.
 */
module NextSession {
  import opened Wrappers
  import opened Types
  import opened Text
  import Progression
  import Cycle
  import Running

  /**
   * `getRunningPaces(baseline)`: as the coach's zones, but falling back to the
   * Cooper test (720 s/km at 1 km in 12 minutes, scaled) without a 5 km time.
   */
  function GetRunningPaces(baseline: Baseline): (z: Running.Zones)
    ensures Running.TruthyInt(baseline.fivekTimeSec) || !Running.TruthyInt(baseline.cooperM) ==>
      z == Running.BaselineToZones(baseline)
    ensures !Running.TruthyInt(baseline.fivekTimeSec) && Running.TruthyInt(baseline.cooperM) ==>
      var pace := 720.0 / (baseline.cooperM.value as real / 1000.0);
      z == Running.ZonesFromPace(Some(pace), baseline.easyPaceSecPerKm)
      && (baseline.easyPaceSecPerKm.None? ==> z.easy == Some(Running.JsRound(pace * 1.2)))
      && z.tempo == Some(Running.JsRound(pace * 1.06)) && z.interval == Some(Running.JsRound(pace * 0.95))
  {
    var fiveK := baseline.fivekTimeSec;
    var cooper := baseline.cooperM;
    var fiveKPace :=
      if Running.TruthyInt(fiveK) then Some(fiveK.value as real / 5.0)
      else if Running.TruthyInt(cooper) then Some(720.0 / (cooper.value as real / 1000.0))
      else None;
    Running.ZonesFromPace(fiveKPace, baseline.easyPaceSecPerKm)
  }

  /** 2400 m in the Cooper test: a 5 km pace of 300 s/km, easy runs at 360 s/km. */
  lemma CooperExample()
    ensures GetRunningPaces(EmptyBaseline.(cooperM := Some(2400))).easy == Some(360)
  {
    assert 720.0 / (2400 as real / 1000.0) == 300.0;
    assert Running.JsRound(300.0 * 1.2) == 360;
  }

  /** A cold-start point: a recommendation, with a pace for running workouts. */
  datatype StartingPoint = StartingPoint(rec: Progression.Recommendation, pace: Option<int>)

  const BaselinePaceNote: string := "Allure recommandée calculée depuis ton baseline."
  const EasyPaceNote: string := "Reste en aisance respiratoire (RPE 6-7)."
  const StopBeforeFailureNote: string := "Stop 1-2 reps before failure."
  const Conservative3rmNote: string := "Baseline 3RM utilisé de manière conservatrice."
  const TechniqueLoadNote: string := "Technique load 50-70% de ta base."
  const FiveRmStartNote: string := "Démarrage à ~90-95% de ton 5RM."

  /** Two reps short of the self-reported maximum, clamped into the target range. */
  function RepTarget(min: int, max: int, best: int): (t: int)
    ensures min <= max ==> min <= t <= max
    ensures min <= best - 2 <= max ==> t == best - 2
    ensures best - 2 < min ==> t == min
    ensures min <= max < best - 2 ==> t == max
    ensures max < min ==> t == min
  {
    Max(min, Min(max, best - 2))
  }

  /** `${target}-${Math.min(target + spread, max)}`. */
  function TargetReps(min: int, max: int, best: int, spread: int): (text: string)
    ensures 0 <= min <= max && spread >= 0 ==>
      var t := RepTarget(min, max, best);
      Numbers(text) == [t, Min(t + spread, max)]
  {
    var t := RepTarget(min, max, best);
    var text := IntToString(t) + "-" + IntToString(Min(t + spread, max));
    if 0 <= min <= max && spread >= 0 then
      NumbersOfPair(t, '-', Min(t + spread, max), []);
      assert text + [] == text;
      text
    else
      text
  }

  predicate TruthyReal(v: Option<real>) {
    v.Some? && v.value != 0.0
  }

  /** A load of `fraction` times a reference maximum, on the 0.5 kg grid. */
  function StartLoad(reference: real, fraction: real): (w: real)
    ensures Progression.IsHalfMultiple(w)
    ensures reference * fraction - 0.25 < w <= reference * fraction + 0.25
  {
    Progression.RoundToHalf(reference * fraction)
  }

  /** The generic strength starting points from the bench, squat and row maxima. */
  function GenericStart(exercise: PlanExercise, baseline: Baseline): (s: StartingPoint)
    ensures s.pace.None?
    ensures s.rec.recommendedReps == Progression.RepsRange(exercise.targetRepsMin, exercise.targetRepsMax)
    ensures var key := exercise.exerciseKey;
      var bench := Contains(key, "bench") && TruthyReal(baseline.benchPress5rmKg);
      var squat := !bench && Contains(key, "squat") && TruthyReal(baseline.squat5rmKg);
      var row := !bench && !squat && Contains(key, "row") && TruthyReal(baseline.row8rmKg);
      && (bench ==> s.rec.recommendedWeight == Some(Progression.RoundToHalf(baseline.benchPress5rmKg.value * 0.92))
                    && s.rec.progressionNote == FiveRmStartNote)
      && (squat ==> s.rec.recommendedWeight == Some(Progression.RoundToHalf(baseline.squat5rmKg.value * 0.92))
                    && s.rec.progressionNote == FiveRmStartNote)
      && (row ==> s.rec.recommendedWeight == Some(Progression.RoundToHalf(baseline.row8rmKg.value * 0.95))
                  && s.rec.progressionNote == "")
      && (!bench && !squat && !row ==> s.rec.recommendedWeight.None? && s.rec.progressionNote == "")
  {
    var key := exercise.exerciseKey;
    var reps := Progression.RepsRange(exercise.targetRepsMin, exercise.targetRepsMax);
    if Contains(key, "bench") && TruthyReal(baseline.benchPress5rmKg) then
      StartingPoint(Progression.Recommendation(Some(StartLoad(baseline.benchPress5rmKg.value, 0.92)), reps, FiveRmStartNote), None)
    else if Contains(key, "squat") && TruthyReal(baseline.squat5rmKg) then
      StartingPoint(Progression.Recommendation(Some(StartLoad(baseline.squat5rmKg.value, 0.92)), reps, FiveRmStartNote), None)
    else if Contains(key, "row") && TruthyReal(baseline.row8rmKg) then
      StartingPoint(Progression.Recommendation(Some(StartLoad(baseline.row8rmKg.value, 0.95)), reps, ""), None)
    else
      StartingPoint(Progression.Recommendation(None, reps, ""), None)
  }

  /** `baselineStartingPoint(exercise, archetype, baseline)`. */
  function BaselineStartingPoint(exercise: PlanExercise, archetype: Archetype, baseline: Baseline): (s: StartingPoint)
    ensures archetype != Archetype.Running ==> s.pace.None?
    ensures archetype == Archetype.Running || archetype == Calisthenics ==> s.rec.recommendedWeight.None?
    ensures s.rec.recommendedWeight.Some? ==> Progression.IsHalfMultiple(s.rec.recommendedWeight.value)
    ensures archetype == Archetype.Running ==>
      && s.pace == (var z := GetRunningPaces(baseline);
                    if Contains(exercise.exerciseKey, "interval") then z.interval
                    else if Contains(exercise.exerciseKey, "tempo") then z.tempo
                    else z.easy)
      && s.rec.progressionNote == (if Running.TruthyInt(s.pace) then BaselinePaceNote else EasyPaceNote)
    ensures archetype != Calisthenics ==>
      s.rec.recommendedReps == Progression.RepsRange(exercise.targetRepsMin, exercise.targetRepsMax)
    ensures archetype == Hypertrophy ==> s == GenericStart(exercise, baseline)
    ensures archetype == Weightlifting ==>
      var key := exercise.exerciseKey;
      var front := Contains(key, "front_squat") && TruthyReal(baseline.frontSquat3rmKg);
      var clean := !front && (Contains(key, "snatch") || Contains(key, "clean")) && TruthyReal(baseline.powerClean3rmKg);
      var press := !front && !clean && Contains(key, "press") && TruthyReal(baseline.strictPress5rmKg);
      && (front ==> s.rec.recommendedWeight == Some(Progression.RoundToHalf(baseline.frontSquat3rmKg.value * 0.8))
                    && s.rec.progressionNote == Conservative3rmNote)
      && (clean ==> s.rec.recommendedWeight == Some(Progression.RoundToHalf(baseline.powerClean3rmKg.value * 0.6))
                    && s.rec.progressionNote == TechniqueLoadNote)
      && (press ==> s.rec.recommendedWeight == Some(Progression.RoundToHalf(baseline.strictPress5rmKg.value * 0.9))
                    && s.rec.progressionNote == "")
      && (!front && !clean && !press ==> s == GenericStart(exercise, baseline))
    ensures archetype == Calisthenics ==>
      var key, min, max := exercise.exerciseKey, exercise.targetRepsMin, exercise.targetRepsMax;
      var pull := Contains(key, "pullup") && Running.TruthyInt(baseline.pullupsMax);
      var dip := !pull && Contains(key, "dip") && Running.TruthyInt(baseline.dipsMax);
      var push := !pull && !dip && Contains(key, "push") && Running.TruthyInt(baseline.pushupsMax);
      && (pull ==> s.rec == Progression.Recommendation(None, TargetReps(min, max, baseline.pullupsMax.value, 1), StopBeforeFailureNote))
      && (dip ==> s.rec == Progression.Recommendation(None, TargetReps(min, max, baseline.dipsMax.value, 1), StopBeforeFailureNote))
      && (push ==> s.rec == Progression.Recommendation(None, TargetReps(min, max, baseline.pushupsMax.value, 2), StopBeforeFailureNote))
      && (!pull && !dip && !push ==> s.rec == Progression.Recommendation(None, Progression.RepsRange(min, max), ""))
  {
    var key := exercise.exerciseKey;
    var min, max := exercise.targetRepsMin, exercise.targetRepsMax;
    var reps := Progression.RepsRange(min, max);
    match archetype
    case Running =>
      var paces := GetRunningPaces(baseline);
      var pace := if Contains(key, "interval") then paces.interval else if Contains(key, "tempo") then paces.tempo else paces.easy;
      var note := if Running.TruthyInt(pace) then BaselinePaceNote else EasyPaceNote;
      StartingPoint(Progression.Recommendation(None, reps, note), pace)
    case Calisthenics =>
      if Contains(key, "pullup") && Running.TruthyInt(baseline.pullupsMax) then
        StartingPoint(Progression.Recommendation(None, TargetReps(min, max, baseline.pullupsMax.value, 1), StopBeforeFailureNote), None)
      else if Contains(key, "dip") && Running.TruthyInt(baseline.dipsMax) then
        StartingPoint(Progression.Recommendation(None, TargetReps(min, max, baseline.dipsMax.value, 1), StopBeforeFailureNote), None)
      else if Contains(key, "push") && Running.TruthyInt(baseline.pushupsMax) then
        StartingPoint(Progression.Recommendation(None, TargetReps(min, max, baseline.pushupsMax.value, 2), StopBeforeFailureNote), None)
      else
        StartingPoint(Progression.Recommendation(None, reps, ""), None)
    case Weightlifting =>
      if Contains(key, "front_squat") && TruthyReal(baseline.frontSquat3rmKg) then
        StartingPoint(Progression.Recommendation(Some(StartLoad(baseline.frontSquat3rmKg.value, 0.8)), reps, Conservative3rmNote), None)
      else if (Contains(key, "snatch") || Contains(key, "clean")) && TruthyReal(baseline.powerClean3rmKg) then
        StartingPoint(Progression.Recommendation(Some(StartLoad(baseline.powerClean3rmKg.value, 0.6)), reps, TechniqueLoadNote), None)
      else if Contains(key, "press") && TruthyReal(baseline.strictPress5rmKg) then
        StartingPoint(Progression.Recommendation(Some(StartLoad(baseline.strictPress5rmKg.value, 0.9)), reps, ""), None)
      else
        GenericStart(exercise, baseline)
    case Hypertrophy =>
      GenericStart(exercise, baseline)
  }

  /**
   * A calisthenics cold start from a self-reported maximum reads back as two
   * numbers inside the target range, the first at most the second.
   */
  lemma {:induction false} CalisthenicsRepsInRange(min: nat, max: nat, best: int, spread: nat)
    requires min <= max
    ensures var t := RepTarget(min, max, best);
      Numbers(TargetReps(min, max, best, spread)) == [t, Min(t + spread, max)]
      && min <= t <= Min(t + spread, max) <= max
  {
    var t: nat := RepTarget(min, max, best);
    var u: nat := Min(t + spread, max);
    var text := NatToString(t) + ['-'] + NatToString(u);
    assert TargetReps(min, max, best, spread) == text;
    NumbersOfPair(t, '-', u, []);
    assert text + [] == text;
  }

  /** A cold start for a 100 kg front squat 3RM: 80 kg. */
  lemma FrontSquatExample(exercise: PlanExercise)
    requires exercise.exerciseKey == "front_squat"
    ensures BaselineStartingPoint(exercise, Weightlifting, EmptyBaseline.(frontSquat3rmKg := Some(100.0))).rec.recommendedWeight
      == Some(80.0)
  {
    assert OccursAt(exercise.exerciseKey, "front_squat", 0);
    assert Progression.RoundToHalf(80.0) == 80.0;
  }

  /** `Pace cible: {pace}s/km`. */
  function PaceNote(pace: int): string {
    "Pace cible: " + IntToString(pace) + "s/km"
  }

  /** One entry of the next session; `equipmentOverride` replaces the planned equipment type when given. */
  function NextEntry(
    exercise: PlanExercise, goal: Goal, cycleWeek: int, logsByExercise: map<string, seq<LogEntry>>,
    equipmentOverride: Option<EquipmentType>, archetype: Archetype, baseline: Baseline): (b: BlueprintExercise)
    ensures b.targetPace == ""
    ensures b.exercise.exerciseKey == exercise.exerciseKey && b.exercise.exerciseName == exercise.exerciseName
      && b.exercise.equipmentType == exercise.equipmentType && b.exercise.reps == exercise.reps
    ensures LogsFor(logsByExercise, exercise.exerciseKey) == [] ==>
      b.recommendedPace == BaselineStartingPoint(exercise, archetype, baseline).pace
      && b.exercise.sets == exercise.sets
    ensures LogsFor(logsByExercise, exercise.exerciseKey) != [] ==>
      && b.recommendedPace.None?
      && b.recommendedReps == Progression.RepsRange(exercise.targetRepsMin, exercise.targetRepsMax)
      && (Cycle.IsDeloadWeek(cycleWeek) ==>
            Cycle.NormalizeSets(b.exercise.sets) == Max(2, Cycle.NormalizeSets(exercise.sets) - 1))
      && (!Cycle.IsDeloadWeek(cycleWeek) ==> b.exercise == exercise)
    ensures LogsFor(logsByExercise, exercise.exerciseKey) != [] && b.recommendedWeight.Some? ==>
      Progression.IsHalfMultiple(b.recommendedWeight.value)
    ensures LogsFor(logsByExercise, exercise.exerciseKey) == [] ==>
      var starter := BaselineStartingPoint(exercise, archetype, baseline);
      b.recommendedWeight == starter.rec.recommendedWeight && b.recommendedReps == starter.rec.recommendedReps
      && b.progressionNote == starter.rec.progressionNote
      && b.exercise == exercise.(notes := AppendNote(exercise.notes,
           if Running.TruthyInt(starter.pace) then PaceNote(starter.pace.value) else ""))
    ensures var logs := LogsFor(logsByExercise, exercise.exerciseKey);
      var rec := Progression.RecommendFromLogs(goal, logs, exercise.targetRepsMin, exercise.targetRepsMax,
        equipmentOverride.GetOr(exercise.equipmentType));
      logs != [] ==>
        && (!Cycle.IsDeloadWeek(cycleWeek) ==>
              b.recommendedWeight == rec.recommendedWeight && b.progressionNote == rec.progressionNote)
        && (Cycle.IsDeloadWeek(cycleWeek) ==>
              var d := Cycle.ApplyDeload(exercise.sets, rec);
              b.exercise == exercise.(sets := d.sets, notes := AppendNote(exercise.notes, d.note))
              && b.recommendedWeight == d.recommendedWeight && b.progressionNote == d.progressionNote)
  {
    var logs := LogsFor(logsByExercise, exercise.exerciseKey);
    if logs == [] then
      var starter := BaselineStartingPoint(exercise, archetype, baseline);
      var paceNote := if Running.TruthyInt(starter.pace) then PaceNote(starter.pace.value) else "";
      BlueprintExercise(exercise.(notes := AppendNote(exercise.notes, paceNote)),
        starter.rec.recommendedWeight, starter.rec.recommendedReps, starter.pace, starter.rec.progressionNote, "")
    else
      var equipment := equipmentOverride.GetOr(exercise.equipmentType);
      var rec := Progression.RecommendFromLogs(goal, logs, exercise.targetRepsMin, exercise.targetRepsMax, equipment);
      if !Cycle.IsDeloadWeek(cycleWeek) then
        BlueprintExercise(exercise, rec.recommendedWeight, rec.recommendedReps, None, rec.progressionNote, "")
      else
        var deloaded := Cycle.ApplyDeload(exercise.sets, rec);
        BlueprintExercise(exercise.(sets := deloaded.sets, notes := AppendNote(exercise.notes, deloaded.note)),
          deloaded.recommendedWeight, rec.recommendedReps, None, deloaded.progressionNote, "")
  }

  /** `buildNextSessionBlueprint({...})`: one entry per exercise of the day, in order. */
  function BuildNextSessionBlueprint(
    day: PlanDay, goal: Goal, cycleWeek: int, logsByExercise: map<string, seq<LogEntry>>,
    equipmentOverride: Option<EquipmentType>, archetype: Archetype, baseline: Baseline): (bp: SessionBlueprint)
    ensures bp.cycleWeek == cycleWeek && bp.deload == Cycle.IsDeloadWeek(cycleWeek)
    ensures bp.day == day.day && bp.focus == day.focus
    ensures |bp.exercises| == |day.exercises|
    ensures forall i :: 0 <= i < |bp.exercises| ==>
      bp.exercises[i] == NextEntry(day.exercises[i], goal, cycleWeek, logsByExercise, equipmentOverride, archetype, baseline)
  {
    var exercises := seq(|day.exercises|, i requires 0 <= i < |day.exercises| =>
      NextEntry(day.exercises[i], goal, cycleWeek, logsByExercise, equipmentOverride, archetype, baseline));
    SessionBlueprint(cycleWeek, Cycle.IsDeloadWeek(cycleWeek), day.day, day.focus, exercises)
  }

  /**
   * With logs, the equipment override decides bodyweight handling: an
   * exercise treated as bodyweight gets no load.
   */
  lemma BodyweightOverrideHasNoLoad(
    exercise: PlanExercise, goal: Goal, cycleWeek: int, logsByExercise: map<string, seq<LogEntry>>,
    archetype: Archetype, baseline: Baseline)
    requires LogsFor(logsByExercise, exercise.exerciseKey) != []
    ensures NextEntry(exercise, goal, cycleWeek, logsByExercise, Some(Bodyweight), archetype, baseline).recommendedWeight.None?
  {
  }
}
