/**
 * lib/coach/substitute.ts: replacing a planned exercise that is banned, needs
 * unavailable equipment or touches an injury by the best-ranked allowed
 * variant from the catalog.
 */
module Substitute {
  import opened Wrappers
  import opened Types
  import opened Text
  import Seqs
  import Sorting

  /** `value.toLowerCase().trim()`. */
  function Normalize(value: string): (r: string)
    ensures r == [] || (!IsSpace(r[0]) && !IsSpace(r[|r| - 1]))
    ensures exists a, b :: 0 <= a <= b <= |value| && r == ToLower(value)[a..b]
  {
    Trim(ToLower(value))
  }

  /** `list.map(normalize).includes(normalize(x))`. */
  predicate InNormalized(list: seq<string>, x: string) {
    exists i :: 0 <= i < |list| && Normalize(list[i]) == Normalize(x)
  }

  /** Bodyweight and running need nothing; outdoors nothing else is available; otherwise it must be listed. */
  predicate EquipmentAllowed(equipmentType: EquipmentType, available: seq<string>, location: Location)
    ensures equipmentType == Bodyweight || equipmentType == EquipmentType.Running ==>
      EquipmentAllowed(equipmentType, available, location)
    ensures location == Outdoor && EquipmentAllowed(equipmentType, available, location) ==>
      equipmentType == Bodyweight || equipmentType == EquipmentType.Running
    ensures location != Outdoor && equipmentType != Bodyweight && equipmentType != EquipmentType.Running ==>
      (EquipmentAllowed(equipmentType, available, location) <==>
         exists i :: 0 <= i < |available| && Normalize(available[i]) == Normalize(equipmentType.Name()))
  {
    if equipmentType == Bodyweight || equipmentType == EquipmentType.Running then true
    else if location == Outdoor then false
    else InNormalized(available, equipmentType.Name())
  }

  /** The base key of the catalog family an exercise key belongs to. */
  function InferBaseKey(exerciseKey: string): (baseKey: string)
    ensures Contains(exerciseKey, "bench") ==> baseKey == "barbell_bench_press"
    ensures !Contains(exerciseKey, "bench") && Contains(exerciseKey, "squat") ==> baseKey == "barbell_back_squat"
    ensures !Contains(exerciseKey, "bench") && !Contains(exerciseKey, "squat") && Contains(exerciseKey, "row") ==>
      baseKey == "barbell_row"
    ensures (!Contains(exerciseKey, "bench") && !Contains(exerciseKey, "squat") && !Contains(exerciseKey, "row")
             && Contains(exerciseKey, "pullup")) ==> baseKey == "strict_pullup"
    ensures (!Contains(exerciseKey, "bench") && !Contains(exerciseKey, "squat") && !Contains(exerciseKey, "row")
             && !Contains(exerciseKey, "pullup") && Contains(exerciseKey, "interval")) ==> baseKey == "interval_run"
    ensures (!Contains(exerciseKey, "bench") && !Contains(exerciseKey, "squat") && !Contains(exerciseKey, "row")
             && !Contains(exerciseKey, "pullup") && !Contains(exerciseKey, "interval")) ==> baseKey == exerciseKey
  {
    if Contains(exerciseKey, "bench") then "barbell_bench_press"
    else if Contains(exerciseKey, "squat") then "barbell_back_squat"
    else if Contains(exerciseKey, "row") then "barbell_row"
    else if Contains(exerciseKey, "pullup") then "strict_pullup"
    else if Contains(exerciseKey, "interval") then "interval_run"
    else exerciseKey
  }

  predicate IsBanned(base: PlanExercise, context: ConstraintSet) {
    InNormalized(context.banned, base.exerciseKey)
  }

  predicate TouchesInjury(base: PlanExercise, context: ConstraintSet) {
    exists i :: 0 <= i < |context.injuries| && Contains(Normalize(base.exerciseName), Normalize(context.injuries[i]))
  }

  /** The exercise must be replaced: banned, needing missing equipment, or touching an injury. */
  predicate NeedsSubstitute(base: PlanExercise, context: ConstraintSet)
    ensures IsBanned(base, context) || TouchesInjury(base, context) ==> NeedsSubstitute(base, context)
    ensures (context.location == Outdoor && base.equipmentType != Bodyweight
             && base.equipmentType != EquipmentType.Running) ==> NeedsSubstitute(base, context)
    ensures (base.equipmentType == Bodyweight || base.equipmentType == EquipmentType.Running) ==>
      (NeedsSubstitute(base, context) <==> IsBanned(base, context) || TouchesInjury(base, context))
  {
    IsBanned(base, context)
    || !EquipmentAllowed(base.equipmentType, context.equipment, context.location)
    || TouchesInjury(base, context)
  }

  /** A variant of the base family that is neither banned nor needs unavailable equipment. */
  predicate Eligible(v: VariantExercise, baseKey: string, context: ConstraintSet) {
    v.baseKey == baseKey
    && !InNormalized(context.banned, v.variantKey)
    && EquipmentAllowed(v.equipmentType, context.equipment, context.location)
  }

  function PriorityRank(v: VariantExercise): (int, int) {
    (v.priority, 0)
  }

  /** The three filters of the catalog, in order. */
  function Candidates(baseKey: string, context: ConstraintSet, catalog: seq<VariantExercise>): (c: seq<VariantExercise>)
    ensures forall i :: 0 <= i < |c| ==> c[i] in catalog && Eligible(c[i], baseKey, context)
    ensures forall i :: 0 <= i < |catalog| && Eligible(catalog[i], baseKey, context) ==> catalog[i] in c
  {
    var sameFamily := Seqs.Filter(catalog, (v: VariantExercise) => v.baseKey == baseKey);
    var notBanned := Seqs.Filter(sameFamily, (v: VariantExercise) => !InNormalized(context.banned, v.variantKey));
    var allowed := Seqs.Filter(notBanned, (v: VariantExercise) => EquipmentAllowed(v.equipmentType, context.equipment, context.location));
    Seqs.FilterMembers(catalog, (v: VariantExercise) => v.baseKey == baseKey);
    Seqs.FilterMembers(sameFamily, (v: VariantExercise) => !InNormalized(context.banned, v.variantKey));
    Seqs.FilterMembers(notBanned, (v: VariantExercise) => EquipmentAllowed(v.equipmentType, context.equipment, context.location));
    allowed
  }

  /** Text whose lower-cased ends are not white space normalizes to its lower-case form. */
  lemma NormalizeUnpadded(s: string)
    requires s != [] && !IsSpace(LowerChar(s[0])) && !IsSpace(LowerChar(s[|s| - 1]))
    ensures Normalize(s) == ToLower(s)
  {
    TrimOfUnpadded(ToLower(s));
  }

  /** `Substitution coach: {from} → {to}`. */
  function SubstitutionNote(fromName: string, toName: string): string {
    "Substitution coach: " + fromName + " → " + toName
  }

  /** The base exercise with the variant's key, name and equipment, and the substitution noted. */
  function SwapTo(base: PlanExercise, v: VariantExercise): PlanExercise {
    base.(exerciseKey := v.variantKey, exerciseName := v.name, equipmentType := v.equipmentType,
          notes := AppendNote(base.notes, SubstitutionNote(base.exerciseName, v.name)))
  }

  /** Appending a non-empty note changes the notes. */
  lemma AppendNonEmptyChanges(a: string, b: string)
    requires b != ""
    ensures AppendNote(a, b) != a
  {
    if a != "" {
      assert |AppendNote(a, b)| > |a|;
    }
  }

  /** `pickSubstitute(baseExercise, context, variantsCatalog)`. */
  function PickSubstitute(base: PlanExercise, context: ConstraintSet, catalog: seq<VariantExercise>): (r: PlanExercise)
    ensures !NeedsSubstitute(base, context) ==> r == base
    ensures r == base || exists v :: v in catalog && r == SwapTo(base, v)
    ensures r.sets == base.sets && r.reps == base.reps && r.pattern == base.pattern
      && r.targetRepsMin == base.targetRepsMin && r.targetRepsMax == base.targetRepsMax
  {
    if !NeedsSubstitute(base, context) then base
    else
      var ranked := Sorting.SortBy(Candidates(InferBaseKey(base.exerciseKey), context, catalog), PriorityRank);
      if ranked == [] then base
      else
        assert ranked[0] in multiset(Candidates(InferBaseKey(base.exerciseKey), context, catalog));
        SwapTo(base, ranked[0])
  }

  /**
   * A replaced exercise that needs a substitute moves to an eligible variant of
   * its family with the lowest priority, and it is replaced exactly when such
   * a variant exists.
   */
  lemma SubstituteIsBestEligible(base: PlanExercise, context: ConstraintSet, catalog: seq<VariantExercise>)
    requires NeedsSubstitute(base, context)
    ensures var baseKey := InferBaseKey(base.exerciseKey);
      var r := PickSubstitute(base, context, catalog);
      (r != base <==> exists i :: 0 <= i < |catalog| && Eligible(catalog[i], baseKey, context))
      && (r != base ==>
            exists v :: v in catalog && Eligible(v, baseKey, context) && r == SwapTo(base, v)
              && forall u :: u in catalog && Eligible(u, baseKey, context) ==> v.priority <= u.priority)
  {
    var baseKey := InferBaseKey(base.exerciseKey);
    var cands := Candidates(baseKey, context, catalog);
    var ranked := Sorting.SortBy(cands, PriorityRank);
    if ranked != [] {
      var v := ranked[0];
      assert v in multiset(cands);
      AppendNonEmptyChanges(base.notes, SubstitutionNote(base.exerciseName, v.name));
      forall u | u in catalog && Eligible(u, baseKey, context)
        ensures v.priority <= u.priority
      {
        Sorting.SortByHeadIsLeast(cands, PriorityRank, u);
      }
    } else {
      assert |cands| == 0;
    }
  }

  /** The swap of the banned barbell bench press for the machine chest press. */
  const BenchPress := PlanExercise("barbell_bench_press", "Barbell Bench Press", "", Barbell, "4", "6-10", 6, 10, "")
  const BenchBanned := ConstraintSet([], ["machine"], Gym, ["barbell_bench_press"], [], None)
  const ChestPress := VariantExercise("barbell_bench_press", "machine_chest_press", "Machine Chest Press", Machine, ["shoulder_friendly"], 90)

  /** The banned bench press needs a substitute and keeps its own family. */
  lemma BenchPressNeedsSubstitute()
    ensures NeedsSubstitute(BenchPress, BenchBanned)
    ensures InferBaseKey(BenchPress.exerciseKey) == "barbell_bench_press"
  {
    assert Normalize(BenchBanned.banned[0]) == Normalize(BenchPress.exerciseKey);
    assert OccursAt(BenchPress.exerciseKey, "bench", 8);
  }

  /** The machine chest press is an eligible variant of the bench press family. */
  lemma ChestPressEligible()
    ensures Eligible(ChestPress, "barbell_bench_press", BenchBanned)
  {
    NormalizeUnpadded(BenchBanned.banned[0]);
    NormalizeUnpadded(ChestPress.variantKey);
    assert Normalize(BenchBanned.banned[0])[0] != Normalize(ChestPress.variantKey)[0];
    assert Normalize(BenchBanned.equipment[0]) == Normalize(Machine.Name());
  }

  /** A banned barbell bench press in a machine-only gym moves to the machine chest press. */
  lemma BannedBenchExample()
    ensures PickSubstitute(BenchPress, BenchBanned, [ChestPress]).exerciseKey == "machine_chest_press"
  {
    BenchPressNeedsSubstitute();
    ChestPressEligible();
    SubstituteIsBestEligible(BenchPress, BenchBanned, [ChestPress]);
  }
}
