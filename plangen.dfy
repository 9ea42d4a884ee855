/**
 * lib/plan/generatePlan.ts: the template plan generator. Exercise names are
 * turned into keys, an equipment type and a rep range; a split and three to
 * six training days are chosen from the days per week, with names from an
 * exercise library that depends on the place and the equipment at hand.
 */
module PlanGen {
  import opened Wrappers
  import opened Types
  import opened Text
  import Progression
  import Seqs

  datatype TrainingLevel = Beginner | Intermediate | Advanced {
    function Name(): string {
      match this
      case Beginner => "beginner"
      case Intermediate => "intermediate"
      case Advanced => "advanced"
    }
  }

  datatype UserPrefs = UserPrefs(
    heroClass: string,
    trainingLevel: TrainingLevel,
    goal: Option<Goal>,
    location: Location,
    daysPerWeek: int,
    equipment: seq<string>)

  datatype GeneratedPlan = GeneratedPlan(title: string, meta: UserPrefs, split: string, days: seq<PlanDay>)

  // ---------------------------------------------------------------------
  // Exercise keys

  predicate IsSlugChar(c: char) {
    'a' <= c <= 'z' || '0' <= c <= '9'
  }

  /** Slug characters and single underscores between them. */
  predicate SlugBody(s: string) {
    (forall i :: 0 <= i < |s| ==> IsSlugChar(s[i]) || s[i] == '_')
    && forall i :: 0 <= i < |s| - 1 ==> !(s[i] == '_' && s[i + 1] == '_')
  }

  /** A key as `slugifyExercise` makes them: `[a-z0-9]` runs joined by single underscores. */
  predicate IsSlug(s: string) {
    SlugBody(s) && (s != [] ==> s[0] != '_' && s[|s| - 1] != '_')
  }

  /** Length of the run of characters outside `[a-z0-9]` that starts `s`. */
  function NonSlugRun(s: string): (k: nat)
    ensures k <= |s|
    ensures forall i :: 0 <= i < k ==> !IsSlugChar(s[i])
    ensures k < |s| ==> IsSlugChar(s[k])
  {
    if s == [] || IsSlugChar(s[0]) then 0 else 1 + NonSlugRun(s[1..])
  }

  /** `replace(/[^a-z0-9]+/g, '_')`: each maximal run outside `[a-z0-9]` becomes one underscore. */
  function CollapseRuns(s: string): (r: string)
    ensures SlugBody(r)
    ensures |r| == 0 <==> |s| == 0
    ensures s != [] && IsSlugChar(s[0]) ==> r[0] == s[0]
    ensures s != [] && !IsSlugChar(s[0]) ==> r[0] == '_'
    decreases |s|
  {
    if s == [] then []
    else if IsSlugChar(s[0]) then
      var r := [s[0]] + CollapseRuns(s[1..]);
      assert forall i :: 1 <= i < |r| ==> r[i] == CollapseRuns(s[1..])[i - 1];
      r
    else
      var k := NonSlugRun(s);
      var r := "_" + CollapseRuns(s[k..]);
      assert forall i :: 1 <= i < |r| ==> r[i] == CollapseRuns(s[k..])[i - 1];
      r
  }

  /** Collapsing the runs keeps every `[a-z0-9]` character, in order. */
  lemma {:induction false} CollapseKeepsSlugChars(s: string)
    ensures Seqs.Filter(CollapseRuns(s), IsSlugChar) == Seqs.Filter(s, IsSlugChar)
    decreases |s|
  {
    if s != [] {
      var r := CollapseRuns(s);
      if IsSlugChar(s[0]) {
        CollapseKeepsSlugChars(s[1..]);
        assert r[1..] == CollapseRuns(s[1..]);
      } else {
        var k := NonSlugRun(s);
        CollapseKeepsSlugChars(s[k..]);
        assert r[1..] == CollapseRuns(s[k..]);
        Seqs.FilterOfMiddle(s, 0, k, IsSlugChar);
        assert s[0..k] == s[..k];
        Seqs.FilterNone(s[..k], IsSlugChar);
      }
    }
  }

  function LeadingUnderscores(s: string): (k: nat)
    ensures k <= |s|
    ensures k < |s| ==> s[k] != '_'
    ensures forall i :: 0 <= i < k ==> s[i] == '_'
  {
    if s != [] && s[0] == '_' then 1 + LeadingUnderscores(s[1..]) else 0
  }

  function TrailingUnderscores(s: string): (k: nat)
    ensures k <= |s|
    ensures k < |s| ==> s[|s| - 1 - k] != '_'
    ensures forall i :: |s| - k <= i < |s| ==> s[i] == '_'
  {
    if s != [] && s[|s| - 1] == '_' then 1 + TrailingUnderscores(s[..|s| - 1]) else 0
  }

  /** `replace(/^_+|_+$/g, '')`. */
  function StripUnderscores(s: string): (r: string)
    ensures r == [] || (r[0] != '_' && r[|r| - 1] != '_')
    ensures exists a, b ::
      && 0 <= a <= b <= |s| && r == s[a..b]
      && (forall i :: 0 <= i < a ==> s[i] == '_')
      && (forall i :: b <= i < |s| ==> s[i] == '_')
  {
    var lead := LeadingUnderscores(s);
    var a := s[lead..];
    var b := lead + |a| - TrailingUnderscores(a);
    assert a[..|a| - TrailingUnderscores(a)] == s[lead..b];
    assert forall i :: b <= i < |s| ==> s[i] == a[i - lead];
    a[..|a| - TrailingUnderscores(a)]
  }

  /** Stripping the end underscores keeps every `[a-z0-9]` character, in order. */
  lemma StripKeepsSlugChars(s: string)
    ensures Seqs.Filter(StripUnderscores(s), IsSlugChar) == Seqs.Filter(s, IsSlugChar)
  {
    var a, b :| && 0 <= a <= b <= |s| && StripUnderscores(s) == s[a..b]
      && (forall i :: 0 <= i < a ==> s[i] == '_')
      && (forall i :: b <= i < |s| ==> s[i] == '_');
    Seqs.FilterOfMiddleOnly(s, a, b, IsSlugChar);
  }

  /** `slugifyExercise(value)`: the `[a-z0-9]` characters of the lower-cased name survive, in order. */
  function Slugify(value: string): (key: string)
    ensures Seqs.Filter(key, IsSlugChar) == Seqs.Filter(ToLower(value), IsSlugChar)
  {
    var collapsed := CollapseRuns(ToLower(value));
    CollapseKeepsSlugChars(ToLower(value));
    StripKeepsSlugChars(collapsed);
    StripUnderscores(collapsed)
  }

  lemma SlugBodySlice(s: string, a: nat, b: nat)
    requires SlugBody(s) && a <= b <= |s|
    ensures SlugBody(s[a..b])
  {
    var t := s[a..b];
    assert forall i :: 0 <= i < |t| ==> t[i] == s[a + i];
  }

  /** Every key made by `Slugify` is a slug. */
  lemma SlugifyIsSlug(value: string)
    ensures IsSlug(Slugify(value))
  {
    var c := CollapseRuns(ToLower(value));
    var a := c[LeadingUnderscores(c)..];
    SlugBodySlice(c, LeadingUnderscores(c), |c|);
    SlugBodySlice(a, 0, |a| - TrailingUnderscores(a));
  }

  /** Runs of one underscore at most are left as they are. */
  lemma {:induction false} CollapseSlugBody(s: string)
    requires SlugBody(s)
    ensures CollapseRuns(s) == s
    decreases |s|
  {
    if s != [] {
      SlugBodySlice(s, 1, |s|);
      CollapseSlugBody(s[1..]);
      if !IsSlugChar(s[0]) {
        assert NonSlugRun(s) == 1;
      }
    }
  }

  /** Slugifying a key changes nothing: `slugifyExercise` is idempotent. */
  lemma SlugifyIdempotent(value: string)
    ensures Slugify(Slugify(value)) == Slugify(value)
  {
    var t := Slugify(value);
    SlugifyIsSlug(value);
    assert ToLower(t) == t;
    CollapseSlugBody(t);
    assert LeadingUnderscores(t) == 0;
    assert t[0..] == t;
    assert TrailingUnderscores(t) == 0;
  }

  /** A word of the name: `[a-z0-9]` characters only. */
  predicate IsSlugWord(w: string) {
    forall i :: 0 <= i < |w| ==> IsSlugChar(w[i])
  }

  /** A word in front of the rest is kept as it is. */
  lemma {:induction false} CollapseWordThen(w: string, t: string)
    requires IsSlugWord(w)
    ensures CollapseRuns(w + t) == w + CollapseRuns(t)
    decreases |w|
  {
    if w == [] {
      assert w + t == t;
    } else {
      var s := w + t;
      assert s[0] == w[0] && s[1..] == w[1..] + t;
      CollapseWordThen(w[1..], t);
      assert CollapseRuns(s) == [w[0]] + CollapseRuns(w[1..] + t);
      assert [w[0]] + (w[1..] + CollapseRuns(t)) == w + CollapseRuns(t);
    }
  }

  /** A separator run in front of a word becomes one underscore. */
  lemma CollapseSepThenWord(sep: string, w: string)
    requires sep != [] && w != [] && IsSlugWord(w)
    requires forall i :: 0 <= i < |sep| ==> !IsSlugChar(sep[i])
    ensures CollapseRuns(sep + w) == "_" + w
  {
    var t := sep + w;
    var k := NonSlugRun(t);
    assert t[|sep|] == w[0];
    assert forall i :: 0 <= i < |sep| ==> t[i] == sep[i];
    assert k == |sep|;
    assert t[k..] == w;
    CollapseWordThen(w, []);
    assert w + [] == w;
  }

  /** Text with no underscore at either end is not stripped. */
  lemma StripUnpadded(s: string)
    requires s != [] && s[0] != '_' && s[|s| - 1] != '_'
    ensures StripUnderscores(s) == s
  {
    assert LeadingUnderscores(s) == 0;
    assert s[0..] == s;
    assert TrailingUnderscores(s) == 0;
  }

  /**
   * Two words with any separator outside `[a-z0-9]` between them (a space,
   * a dash, a slash, ...) become the two lower-cased words joined by one
   * underscore.
   */
  lemma SlugifyJoinsWords(a: string, sep: string, b: string)
    requires a != [] && b != [] && sep != []
    requires IsSlugWord(ToLower(a)) && IsSlugWord(ToLower(b))
    requires forall i :: 0 <= i < |sep| ==> !IsSlugChar(LowerChar(sep[i]))
    ensures Slugify(a + sep + b) == ToLower(a) + "_" + ToLower(b)
  {
    var la, low, lb := ToLower(a), ToLower(sep), ToLower(b);
    assert ToLower(a + sep + b) == la + (low + lb);
    CollapseSepThenWord(low, lb);
    CollapseWordThen(la, low + lb);
    var r := la + "_" + lb;
    assert la + ("_" + lb) == r;
    StripUnpadded(r);
  }

  // ---------------------------------------------------------------------
  // Equipment inference

  const BarbellWords: seq<string> := ["barbell", "ez-bar"]
  const DumbbellWords: seq<string> := ["dumbbell"]
  const MachineWords: seq<string> := ["machine", "cable", "lat pulldown", "leg press"]
  const BandWords: seq<string> := ["band"]
  const BodyweightWords: seq<string> :=
    ["push-up", "pull-up", "chin-up", "plank", "hollow hold", "bodyweight", "inverted row"]

  /** The keyword lists of `inferEquipmentType`, in the order they are tried. */
  const KeywordRules: seq<(EquipmentType, seq<string>)> := [
    (Barbell, BarbellWords), (Dumbbell, DumbbellWords), (Machine, MachineWords),
    (Band, BandWords), (Bodyweight, BodyweightWords)]

  predicate MentionsAny(lower: string, words: seq<string>) {
    exists k :: 0 <= k < |words| && Contains(lower, words[k])
  }

  /** Position of the first rule with a keyword in `lower`, or `|rules|`. */
  function FirstRule(lower: string, rules: seq<(EquipmentType, seq<string>)>): (k: nat)
    ensures k <= |rules|
    ensures k < |rules| ==> MentionsAny(lower, rules[k].1)
    ensures forall j :: 0 <= j < k ==> !MentionsAny(lower, rules[j].1)
  {
    if rules == [] then 0
    else if MentionsAny(lower, rules[0].1) then 0
    else
      var k := 1 + FirstRule(lower, rules[1..]);
      assert forall j :: 1 <= j < |rules| ==> rules[1..][j - 1] == rules[j];
      k
  }

  /** `inferEquipmentType(exerciseName)`: the first keyword list the lower-cased name hits, else unknown. */
  function InferEquipmentType(exerciseName: string): (t: EquipmentType)
    ensures t != EquipmentType.Running
    ensures t == Unknown <==>
      forall k :: 0 <= k < |KeywordRules| ==> !MentionsAny(ToLower(exerciseName), KeywordRules[k].1)
    ensures t != Unknown ==>
      exists k :: 0 <= k < |KeywordRules| && KeywordRules[k].0 == t
        && MentionsAny(ToLower(exerciseName), KeywordRules[k].1)
        && forall j :: 0 <= j < k ==> !MentionsAny(ToLower(exerciseName), KeywordRules[j].1)
  {
    var k := FirstRule(ToLower(exerciseName), KeywordRules);
    if k < |KeywordRules| then KeywordRules[k].0 else Unknown
  }

  lemma BarbellRowIsBarbell()
    ensures InferEquipmentType("Barbell Row") == Barbell
  {
    assert ToLower("Barbell Row") == "barbell row";
    assert OccursAt("barbell row", "barbell", 0);
    assert Contains("barbell row", BarbellWords[0]);
    assert MentionsAny("barbell row", BarbellWords);
  }

  // ---------------------------------------------------------------------
  // Rep ranges

  datatype RepRange = RepRange(min: int, max: int)

  /** `parseRepRange(reps)`: the first two numbers of the text; one number is both bounds; none gives 8-12. */
  function ParseRepRange(reps: string): (r: RepRange)
    ensures r.min >= 0 && r.max >= 0
    ensures Numbers(reps) == [] ==> r == RepRange(8, 12)
    ensures Numbers(reps) != [] ==> r.min == Numbers(reps)[0]
    ensures |Numbers(reps)| == 1 ==> r.max == Numbers(reps)[0]
    ensures |Numbers(reps)| >= 2 ==> r.max == Numbers(reps)[1]
  {
    var numbers := Numbers(reps);
    if |numbers| == 0 then RepRange(8, 12)
    else if |numbers| == 1 then RepRange(numbers[0], numbers[0])
    else RepRange(numbers[0], numbers[1])
  }

  /** The range text the progression prints reads back as the same range. */
  lemma RepRangeRoundTrip(min: nat, max: nat)
    ensures ParseRepRange(Progression.RepsRange(min, max)) == RepRange(min, max)
  {
    NumbersOfPair(min, '-', max, []);
    assert NatToString(min) + ['-'] + NatToString(max) + [] == Progression.RepsRange(min, max);
  }

  /** A single number is both bounds. */
  lemma SingleRepCount(v: nat)
    ensures ParseRepRange(NatToString(v)) == RepRange(v, v)
  {
    NumbersOfDigitsThen(NatToString(v), []);
    assert NatToString(v) + [] == NatToString(v);
  }

  /** Text without digits gives the default 8-12. */
  lemma {:induction false} NoDigitsDefault(reps: string)
    requires forall i :: 0 <= i < |reps| ==> !IsDigit(reps[i])
    ensures ParseRepRange(reps) == RepRange(8, 12)
    decreases |reps|
  {
    if reps != [] {
      NoDigitsDefault(reps[1..]);
    }
  }

  /** The core hold of every scheme, `30-45 sec`. */
  lemma HoldRange()
    ensures ParseRepRange("30-45 sec") == RepRange(30, 45)
  {
    PairThenText(30, 45, " sec");
    assert NatToString(30) == "30" && NatToString(45) == "45";
    assert "30" + ['-'] + "45" + " sec" == "30-45 sec";
  }

  /** Two numbers joined by a dash, then text without digits, parse as that range. */
  lemma PairThenText(a: nat, b: nat, rest: string)
    requires forall i :: 0 <= i < |rest| ==> !IsDigit(rest[i])
    ensures ParseRepRange(NatToString(a) + ['-'] + NatToString(b) + rest) == RepRange(a, b)
  {
    NoDigitsDefault(rest);
    NumbersOfPair(a, '-', b, rest);
  }

  lemma HoldOrdered()
    ensures Ordered(HoldReps)
  {
    HoldRange();
  }

  // ---------------------------------------------------------------------
  // Exercises

  /** A generated exercise: keyed by the slug of its name, typed by its name, with an ordered rep range. */
  predicate WellFormed(e: PlanExercise) {
    e.exerciseKey == Slugify(e.exerciseName)
    && e.equipmentType == InferEquipmentType(e.exerciseName)
    && e.targetRepsMin <= e.targetRepsMax
  }

  /** `makeExercise(name, sets, reps, notes)`; a missing note is the empty text. */
  function MakeExercise(name: string, sets: string, reps: string, notes: Option<string>): (e: PlanExercise)
    ensures e.exerciseName == name && e.sets == sets && e.reps == reps && e.notes == notes.GetOr("")
    ensures e.exerciseKey == Slugify(name) && IsSlug(e.exerciseKey)
    ensures e.equipmentType == InferEquipmentType(name) && e.equipmentType != EquipmentType.Running
    ensures RepRange(e.targetRepsMin, e.targetRepsMax) == ParseRepRange(reps)
    ensures Ordered(reps) ==> WellFormed(e)
  {
    SlugifyIsSlug(name);
    var range := ParseRepRange(reps);
    PlanExercise(Slugify(name), name, "", InferEquipmentType(name), sets, reps, range.min, range.max, notes.GetOr(""))
  }

  /** `normalizeGoal(prefs)`: the chosen goal, else muscle for a Warrior and general otherwise. */
  function NormalizeGoal(prefs: UserPrefs): (g: Goal)
    ensures prefs.goal.Some? ==> g == prefs.goal.value
    ensures prefs.goal.None? ==> (g == Muscle <==> prefs.heroClass == "Warrior")
    ensures prefs.goal.None? ==> g == Muscle || g == General
  {
    if prefs.goal.Some? then prefs.goal.value
    else if prefs.heroClass == "Warrior" then Muscle
    else General
  }

  datatype ExerciseLibrary = ExerciseLibrary(
    horizontalPush: string, verticalPush: string, horizontalPull: string, verticalPull: string,
    squat: string, hinge: string, lateralRaise: string, curls: string, triceps: string,
    core: string, lunge: string)

  const GymLibrary: ExerciseLibrary := ExerciseLibrary(
    "Barbell Bench Press", "Seated Dumbbell Shoulder Press", "Barbell Row", "Lat Pulldown",
    "Back Squat", "Deadlift / Romanian Deadlift", "Dumbbell Lateral Raise", "EZ-Bar Curl",
    "Cable Triceps Pushdown", "Cable Crunch", "Walking Lunges")

  /** `getExerciseLibrary(location, equipment)`: the gym names, or names for the equipment at hand. */
  function GetExerciseLibrary(location: Location, equipment: seq<string>): (ex: ExerciseLibrary)
    ensures location == Gym ==> ex == GymLibrary
    ensures location != Gym ==> ex.core == "Plank / Hollow Hold" && ex.lunge == "Reverse Lunges"
    ensures location != Gym && "pullup_bar" !in equipment && "bands" !in equipment ==>
      ex.verticalPull == ex.horizontalPull
    ensures location != Gym && "dumbbells" in equipment ==>
      ex.horizontalPull == "Single-Arm Dumbbell Row" && ex.squat == "Goblet Squat / Split Squat"
  {
    if location == Gym then GymLibrary
    else
      var dumbbells, bands, pullupBar := "dumbbells" in equipment, "bands" in equipment, "pullup_bar" in equipment;
      var horizontalPull :=
        if dumbbells then "Single-Arm Dumbbell Row"
        else if bands then "Band Row"
        else "Inverted Row (if possible)";
      ExerciseLibrary(
        if dumbbells then "Dumbbell Bench Press / Floor Press" else "Push-Ups",
        if dumbbells then "Dumbbell Shoulder Press" else "Pike Push-Up",
        horizontalPull,
        if pullupBar then "Pull-Ups / Chin-Ups" else if bands then "Band Lat Pulldown" else horizontalPull,
        if dumbbells then "Goblet Squat / Split Squat" else "Bodyweight Squat",
        if dumbbells then "Dumbbell Romanian Deadlift" else "Hip Hinge Good Morning",
        if dumbbells then "Dumbbell Lateral Raise" else if bands then "Band Lateral Raise" else "Lateral Raise (Bodyweight Lean)",
        if dumbbells then "Dumbbell Curl" else if bands then "Band Curl" else "Towel Curl Isometric",
        if dumbbells then "Overhead Dumbbell Triceps Extension" else if bands then "Band Triceps Extension" else "Diamond Push-Ups",
        "Plank / Hollow Hold",
        "Reverse Lunges")
  }

  datatype RepScheme = RepScheme(
    compoundSets: string, compoundReps: string, secondarySets: string, secondaryReps: string,
    accessorySets: string, accessoryReps: string, note: string)

  predicate Ordered(reps: string) {
    ParseRepRange(reps).min <= ParseRepRange(reps).max
  }

  /** A range printed with its lower bound first parses in order. */
  lemma OrderedRange(reps: string, min: nat, max: nat)
    requires reps == Progression.RepsRange(min, max) && min <= max
    ensures Ordered(reps)
  {
    RepRangeRoundTrip(min, max);
  }

  /** The rep texts the day builders prescribe: the schemes' ranges and the core hold. */
  const RepTexts: seq<string> := ["3-5", "5-8", "8-10", "8-12", "10-12", "12-15", "30-45 sec"]

  predicate KnownReps(reps: string) {
    reps in RepTexts
  }

  /** The scheme's three rep texts are among the known ones. */
  predicate SchemeKnown(reps: RepScheme) {
    KnownReps(reps.compoundReps) && KnownReps(reps.secondaryReps) && KnownReps(reps.accessoryReps)
  }

  lemma HoldKnown()
    ensures KnownReps(HoldReps)
  {
    assert RepTexts[6] == HoldReps;
  }

  /** Every rep text the builders prescribe parses with its lower bound first. */
  lemma RepTextOrdered(reps: string)
    requires KnownReps(reps)
    ensures Ordered(reps)
  {
    if reps == HoldReps {
      HoldOrdered();
    } else if reps == "3-5" {
      OrderedRange(reps, 3, 5);
    } else if reps == "5-8" {
      OrderedRange(reps, 5, 8);
    } else if reps == "8-10" {
      OrderedRange(reps, 8, 10);
    } else if reps == "8-12" {
      OrderedRange(reps, 8, 12);
    } else if reps == "10-12" {
      OrderedRange(reps, 10, 12);
    } else {
      OrderedRange(reps, 12, 15);
    }
  }

  /** `getRepScheme(goal)`: every one of its rep ranges has its lower bound first. */
  function GetRepScheme(goal: Goal): (s: RepScheme)
    ensures Ordered(s.compoundReps) && Ordered(s.secondaryReps) && Ordered(s.accessoryReps)
    ensures SchemeKnown(s)
    ensures s.compoundSets == "4" <==> goal == Strength
  {
    var strength := RepScheme("4", "3-5", "3", "5-8", "3", "10-12", "Repos 2-3 min sur les mouvements principaux.");
    var light := RepScheme("3", "8-12", "3", "10-12", "3", "12-15", "Repos courts (60-90 sec), focus technique et dépense énergétique.");
    var muscle := RepScheme("3", "5-8", "3", "8-10", "3", "12-15", "Progresse de 1-2 reps avant d’augmenter la charge.");
    var s := if goal == Strength then strength else if goal == FatLoss || goal == General then light else muscle;
    RepTextOrdered(s.compoundReps);
    RepTextOrdered(s.secondaryReps);
    RepTextOrdered(s.accessoryReps);
    s
  }

  // ---------------------------------------------------------------------
  // Days and plan

  const RpeNote: string := "RPE 7-8"
  const HoldReps: string := "30-45 sec"

  predicate WellFormedDay(d: PlanDay) {
    forall i :: 0 <= i < |d.exercises| ==> WellFormed(d.exercises[i])
  }

  /** The arguments of one `makeExercise` call of a day builder. */
  datatype Prescription = Prescription(name: string, sets: string, reps: string, notes: Option<string>)

  /** One `makeExercise` call of a day builder. */
  function Prescribe(p: Prescription): (e: PlanExercise)
    requires KnownReps(p.reps)
    ensures e.exerciseName == p.name && e.notes == p.notes.GetOr("") && WellFormed(e)
  {
    RepTextOrdered(p.reps);
    MakeExercise(p.name, p.sets, p.reps, p.notes)
  }

  /** The exercises of a day, one `makeExercise` per prescription, in order. */
  function MakeExercises(list: seq<Prescription>): (es: seq<PlanExercise>)
    requires forall p :: p in list ==> KnownReps(p.reps)
    ensures |es| == |list|
    ensures forall i :: 0 <= i < |list| ==> es[i].exerciseName == list[i].name && es[i].notes == list[i].notes.GetOr("")
    ensures forall i :: 0 <= i < |list| ==> WellFormed(es[i])
  {
    seq(|list|, i requires 0 <= i < |list| => Prescribe(list[i]))
  }

  /** What `fullBodyDay` prescribes: seven exercises, the squat first. */
  function FullBodyList(ex: ExerciseLibrary, reps: RepScheme): (list: seq<Prescription>)
    requires SchemeKnown(reps)
    ensures |list| == 7 && list[0].name == ex.squat && list[0].notes == Some(RpeNote)
    ensures forall p :: p in list ==> KnownReps(p.reps)
  {
    HoldKnown();
    [Prescription(ex.squat, reps.compoundSets, reps.compoundReps, Some(RpeNote)),
     Prescription(ex.horizontalPush, reps.secondarySets, reps.secondaryReps, None),
     Prescription(ex.horizontalPull, reps.secondarySets, reps.secondaryReps, None),
     Prescription(ex.hinge, reps.secondarySets, reps.secondaryReps, None),
     Prescription(ex.verticalPull, reps.secondarySets, reps.secondaryReps, None),
     Prescription(ex.lateralRaise, reps.accessorySets, reps.accessoryReps, None),
     Prescription(ex.core, "3", HoldReps, Some(reps.note))]
  }

  /** What `upperDay` prescribes: seven exercises, the horizontal push first. */
  function UpperList(ex: ExerciseLibrary, reps: RepScheme): (list: seq<Prescription>)
    requires SchemeKnown(reps)
    ensures |list| == 7 && list[0].name == ex.horizontalPush && list[0].notes == Some(RpeNote)
    ensures forall p :: p in list ==> KnownReps(p.reps)
  {
    [Prescription(ex.horizontalPush, reps.compoundSets, reps.compoundReps, Some(RpeNote)),
     Prescription(ex.verticalPull, reps.secondarySets, reps.secondaryReps, None),
     Prescription(ex.verticalPush, reps.secondarySets, reps.secondaryReps, None),
     Prescription(ex.horizontalPull, reps.secondarySets, reps.secondaryReps, None),
     Prescription(ex.lateralRaise, reps.accessorySets, reps.accessoryReps, None),
     Prescription(ex.curls, reps.accessorySets, reps.accessoryReps, None),
     Prescription(ex.triceps, reps.accessorySets, reps.accessoryReps, None)]
  }

  /** What `lowerDay` prescribes: five exercises, the squat first. */
  function LowerList(ex: ExerciseLibrary, reps: RepScheme): (list: seq<Prescription>)
    requires SchemeKnown(reps)
    ensures |list| == 5 && list[0].name == ex.squat && list[0].notes == Some(RpeNote)
    ensures forall p :: p in list ==> KnownReps(p.reps)
  {
    HoldKnown();
    [Prescription(ex.squat, reps.compoundSets, reps.compoundReps, Some(RpeNote)),
     Prescription(ex.hinge, reps.secondarySets, reps.secondaryReps, None),
     Prescription(ex.lunge, reps.secondarySets, reps.secondaryReps, None),
     Prescription("Leg Press / Step-Up", reps.secondarySets, reps.secondaryReps, None),
     Prescription(ex.core, "3", HoldReps, Some(reps.note))]
  }

  /** `fullBodyDay(day, focus, ex, goal)`. */
  function FullBodyDay(day: string, focus: string, ex: ExerciseLibrary, goal: Goal): (d: PlanDay)
    ensures d.day == day && d.focus == focus && |d.exercises| == 7 && WellFormedDay(d)
    ensures d.exercises[0].exerciseName == ex.squat && d.exercises[0].notes == RpeNote
  {
    PlanDay(day, focus, MakeExercises(FullBodyList(ex, GetRepScheme(goal))))
  }

  /** `upperDay(day, focus, ex, goal)`. */
  function UpperDay(day: string, focus: string, ex: ExerciseLibrary, goal: Goal): (d: PlanDay)
    ensures d.day == day && d.focus == focus && |d.exercises| == 7 && WellFormedDay(d)
    ensures d.exercises[0].exerciseName == ex.horizontalPush && d.exercises[0].notes == RpeNote
  {
    PlanDay(day, focus, MakeExercises(UpperList(ex, GetRepScheme(goal))))
  }

  /** `lowerDay(day, focus, ex, goal)`. */
  function LowerDay(day: string, focus: string, ex: ExerciseLibrary, goal: Goal): (d: PlanDay)
    ensures d.day == day && d.focus == focus && |d.exercises| == 5 && WellFormedDay(d)
    ensures d.exercises[0].exerciseName == ex.squat && d.exercises[0].notes == RpeNote
  {
    PlanDay(day, focus, MakeExercises(LowerList(ex, GetRepScheme(goal))))
  }

  /** `getSplit(daysPerWeek)`, on the days per week as given. */
  function GetSplit(daysPerWeek: int): (split: string)
    ensures daysPerWeek <= 3 ==> split == "Full Body"
    ensures daysPerWeek == 4 ==> split == "Upper / Lower"
    ensures daysPerWeek == 5 ==> split == "Push / Pull / Legs + Upper + Accessory"
    ensures daysPerWeek >= 6 ==> split == "Push / Pull / Legs x2"
  {
    if daysPerWeek <= 3 then "Full Body"
    else if daysPerWeek == 4 then "Upper / Lower"
    else if daysPerWeek == 5 then "Push / Pull / Legs + Upper + Accessory"
    else "Push / Pull / Legs x2"
  }

  const WeekdayLabels: seq<string> := ["Jour 1", "Jour 2", "Jour 3", "Jour 4", "Jour 5", "Jour 6"]

  /** `Math.min(6, Math.max(3, daysPerWeek))`. */
  function ClampDays(daysPerWeek: int): (n: int)
    ensures 3 <= n <= 6
    ensures 3 <= daysPerWeek <= 6 ==> n == daysPerWeek
  {
    if daysPerWeek > 6 then 6 else if daysPerWeek < 3 then 3 else daysPerWeek
  }

  /** The three day builders. */
  datatype DayKind = FullBody | Upper | Lower

  function BuildDay(kind: DayKind, day: string, focus: string, ex: ExerciseLibrary, goal: Goal): (d: PlanDay)
    ensures d.day == day && d.focus == focus && WellFormedDay(d)
    ensures |d.exercises| == if kind == Lower then 5 else 7
  {
    match kind
    case FullBody => FullBodyDay(day, focus, ex, goal)
    case Upper => UpperDay(day, focus, ex, goal)
    case Lower => LowerDay(day, focus, ex, goal)
  }

  /** The builders and focuses `makeDays` lists for three to six days. */
  function WeekLayout(days: int): (layout: seq<(DayKind, string)>)
    ensures 3 <= days <= 6 ==> |layout| == days
    ensures 3 <= |layout| <= 6
  {
    if days <= 3 then
      [(FullBody, "Full Body A"), (FullBody, "Full Body B"), (FullBody, "Full Body A")]
    else if days == 4 then
      [(Upper, "Upper A"), (Lower, "Lower A"), (Upper, "Upper B"), (Lower, "Lower B")]
    else if days == 5 then
      [(Upper, "Push"), (Upper, "Pull"), (Lower, "Legs"), (Upper, "Upper Hypertrophy"), (Lower, "Accessory + Core")]
    else
      [(Upper, "Push A"), (Upper, "Pull A"), (Lower, "Legs A"), (Upper, "Push B"), (Upper, "Pull B"), (Lower, "Legs B")]
  }

  /** `makeDays(prefs, ex, goal)`: one day per clamped training day, labelled in order. */
  function MakeDays(daysPerWeek: int, ex: ExerciseLibrary, goal: Goal): (days: seq<PlanDay>)
    ensures |days| == ClampDays(daysPerWeek)
    ensures forall i :: 0 <= i < |days| ==> days[i].day == WeekdayLabels[i]
    ensures forall d :: d in days ==> WellFormedDay(d) && (|d.exercises| == 5 || |d.exercises| == 7)
  {
    var layout := WeekLayout(ClampDays(daysPerWeek));
    var days := seq(|layout|, i requires 0 <= i < |layout| =>
      BuildDay(layout[i].0, WeekdayLabels[i], layout[i].1, ex, goal));
    assert forall d :: d in days ==> exists i :: 0 <= i < |days| && days[i] == d;
    days
  }

  /** The split named from the days per week as given matches the number of days built from the clamped value. */
  lemma SplitMatchesDays(daysPerWeek: int, ex: ExerciseLibrary, goal: Goal)
    ensures GetSplit(daysPerWeek) == GetSplit(|MakeDays(daysPerWeek, ex, goal)|)
  {
  }

  /** `generatePlan(prefs)`. */
  function GeneratePlan(prefs: UserPrefs): (plan: GeneratedPlan)
    ensures plan.meta == prefs.(goal := Some(NormalizeGoal(prefs)))
    ensures plan.split == GetSplit(prefs.daysPerWeek)
    ensures plan.title == "Plan " + plan.split + " - " + prefs.trainingLevel.Name()
    ensures |plan.days| == ClampDays(prefs.daysPerWeek)
    ensures forall d :: d in plan.days ==> WellFormedDay(d)
  {
    var goal := NormalizeGoal(prefs);
    var normalized := prefs.(goal := Some(goal));
    var library := GetExerciseLibrary(normalized.location, normalized.equipment);
    var split := GetSplit(normalized.daysPerWeek);
    GeneratedPlan("Plan " + split + " - " + normalized.trainingLevel.Name(), normalized, split,
      MakeDays(normalized.daysPerWeek, library, goal))
  }
}
