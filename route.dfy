/**
 * app/api/program/generate/route.ts: the validation around the AI program
 * generator. The request body and the model's reply arrive as parsed JSON;
 * each step either accepts its value or throws an error whose message the
 * route reports. `undefined` is an absent field, and JavaScript's loose
 * comparisons, truthiness and `TypeError`s on `null` are written out.
 */
module ProgramRoute {
  import opened Wrappers
  import opened Text
  import Seqs

  /** A parsed JSON value. */
  datatype Json =
    | JNull
    | JBool(b: bool)
    | JNum(n: real)
    | JStr(s: string)
    | JArr(items: seq<Json>)
    | JObj(fields: map<string, Json>)

  /** A thrown error: one of the route's own messages, or the `TypeError` of reading a property of `null`. */
  datatype Failure = Thrown(message: string) | TypeError

  /** JavaScript truthiness. */
  predicate Truthy(j: Json) {
    match j
    case JNull => false
    case JBool(b) => b
    case JNum(n) => n != 0.0
    case JStr(s) => s != ""
    case _ => true
  }

  /** `v && typeof v === 'object'`: arrays count as objects. */
  predicate IsObject(j: Json) {
    j.JObj? || j.JArr?
  }

  /** `v[key]`, `None` standing for `undefined`; only plain objects carry named fields. */
  function Field(j: Json, key: string): Option<Json> {
    if j.JObj? && key in j.fields then Some(j.fields[key]) else None
  }

  /** `v?.[key]` on a value that may itself be `undefined`. */
  function FieldOf(v: Option<Json>, key: string): Option<Json> {
    if v.Some? then Field(v.value, key) else None
  }

  /**
   * The number `<` and `>` compare a value as: `undefined` and objects are
   * NaN (`None`), `null` is 0, booleans are 0 and 1, blank text is 0.
   */
  function LooseNumber(v: Option<Json>): (r: Option<real>)
    ensures v.None? ==> r.None?
    ensures v.Some? && v.value.JNum? ==> r == Some(v.value.n)
    ensures v.Some? && v.value.JObj? ==> r.None?
    ensures v == Some(JNull) ==> r == Some(0.0)
    ensures v.Some? && v.value.JBool? ==> r == Some(if v.value.b then 1.0 else 0.0)
    ensures v.Some? && v.value.JStr? ==> (r == Some(0.0) <==> Trim(v.value.s) == "") && (r.Some? ==> r.value == 0.0)
    ensures v.Some? && v.value.JArr? ==> (r.Some? <==> v.value.items == []) && (r.Some? ==> r.value == 0.0)
    ensures r.Some? && !(v.Some? && v.value.JNum?) ==> r.value == 0.0 || r.value == 1.0
  {
    match v
    case None => None
    case Some(JNull) => Some(0.0)
    case Some(JBool(b)) => Some(if b then 1.0 else 0.0)
    case Some(JNum(n)) => Some(n)
    case Some(JStr(s)) => if Trim(s) == "" then Some(0.0) else None
    case Some(JArr(items)) => if items == [] then Some(0.0) else None
    case Some(JObj(_)) => None
  }

  /** `v < lo || v > hi`, false for NaN. */
  predicate OutOfRange(v: Option<real>, lo: real, hi: real) {
    v.Some? && (v.value < lo || v.value > hi)
  }

  /** `typeof v === 'number'` and `lo <= v <= hi`. */
  predicate NumberIn(v: Option<Json>, lo: real, hi: real) {
    v.Some? && v.value.JNum? && lo <= v.value.n <= hi
  }

  /** `isStringArray(v)`: an array of non-empty strings. */
  predicate IsStringArray(v: Option<Json>) {
    v.Some? && v.value.JArr? && forall x :: x in v.value.items ==> x.JStr? && x.s != ""
  }

  /** A string of the given set. */
  predicate InSet(v: Option<Json>, names: seq<string>) {
    v.Some? && v.value.JStr? && v.value.s in names
  }

  // ---------------------------------------------------------------------
  // validateInput

  const Goals: seq<string> := ["fat_loss", "muscle_gain", "strength", "recomp", "endurance", "general_fitness"]
  const Levels: seq<string> := ["beginner", "intermediate", "advanced"]

  const BodyMessage: string := "Body JSON invalide."
  const WeeksMessage: string := "weeks doit être entre 4 et 12."
  const ProfileMessage: string := "profile manquant."
  const GoalMessage: string := "goal invalide."
  const LevelMessage: string := "level invalide."
  const SessionsMessage: string := "sessionsPerWeek doit être entre 2 et 6."
  const EquipmentMessage: string := "equipment doit contenir au moins un élément."
  const DurationMessage: string := "sessionDurationMin doit être entre 20 et 120."

  function Profile(payload: Json): Option<Json> {
    Field(payload, "profile")
  }

  /** The request conditions, each on its own. */
  predicate InputAccepted(payload: Json) {
    var profile := Profile(payload);
    && IsObject(payload)
    && NumberIn(Field(payload, "weeks"), 4.0, 12.0)
    && profile.Some? && Truthy(profile.value) && IsObject(profile.value)
    && InSet(FieldOf(profile, "goal"), Goals)
    && InSet(FieldOf(profile, "level"), Levels)
    && NumberIn(FieldOf(profile, "sessionsPerWeek"), 2.0, 6.0)
    && IsStringArray(FieldOf(profile, "equipment")) && |FieldOf(profile, "equipment").value.items| > 0
    && (FieldOf(profile, "sessionDurationMin").Some? ==>
          !OutOfRange(LooseNumber(FieldOf(profile, "sessionDurationMin")), 20.0, 120.0))
  }

  /** The messages of the request conditions that fail, in the order the route tests them. */
  function InputErrors(payload: Json): (errors: seq<string>)
    ensures errors == [] <==> InputAccepted(payload)
  {
    var profile := Profile(payload);
    var duration := FieldOf(profile, "sessionDurationMin");
    var equipment := FieldOf(profile, "equipment");
    (if IsObject(payload) then [] else [BodyMessage])
    + (if NumberIn(Field(payload, "weeks"), 4.0, 12.0) then [] else [WeeksMessage])
    + (if profile.Some? && Truthy(profile.value) && IsObject(profile.value) then [] else [ProfileMessage])
    + (if InSet(FieldOf(profile, "goal"), Goals) then [] else [GoalMessage])
    + (if InSet(FieldOf(profile, "level"), Levels) then [] else [LevelMessage])
    + (if NumberIn(FieldOf(profile, "sessionsPerWeek"), 2.0, 6.0) then [] else [SessionsMessage])
    + (if IsStringArray(equipment) && |equipment.value.items| > 0 then [] else [EquipmentMessage])
    + (if duration.Some? && OutOfRange(LooseNumber(duration), 20.0, 120.0) then [DurationMessage] else [])
  }

  /** `list?.filter(Boolean)`: absent and `null` give `undefined`, an array loses its falsy entries, anything else has no `filter`. */
  function FilterTruthy(v: Option<Json>): (r: Result<Option<Json>, Failure>)
    ensures r.Err? <==> v.Some? && v.value != JNull && !v.value.JArr?
    ensures r.Err? ==> r.error == TypeError
    ensures r.Ok? && r.value.Some? ==> v.Some? && v.value.JArr? && r.value.value.JArr?
    ensures r.Ok? && r.value.None? ==> v.None? || v.value == JNull
  {
    match v
    case None => Ok(None)
    case Some(JNull) => Ok(None)
    case Some(JArr(items)) => Ok(Some(JArr(Seqs.Filter(items, Truthy))))
    case Some(_) => Err(TypeError)
  }

  /** An object literal's property: an `undefined` value leaves the key out. */
  function Put(m: map<string, Json>, key: string, v: Option<Json>): map<string, Json> {
    if v.Some? then m[key := v.value] else m
  }

  /** The three lists of a constraints object that are filtered. */
  const ConstraintLists: seq<string> := ["dislikes", "focusWeakPoints", "preferExercises"]

  /** The keys a rebuilt constraints object can have. */
  const ConstraintKeys: set<string> := {"injuries", "dislikes", "focusWeakPoints", "preferExercises"}

  /** The rebuilt `constraints`: `injuries` as given, the three lists through `filter(Boolean)`. */
  function CleanConstraints(c: Json): (r: Result<Json, Failure>)
    ensures r.Err? <==> (|| FilterTruthy(Field(c, "dislikes")).Err?
                         || FilterTruthy(Field(c, "focusWeakPoints")).Err?
                         || FilterTruthy(Field(c, "preferExercises")).Err?)
    ensures r.Err? ==> r.error == TypeError
    ensures r.Ok? ==> r.value.JObj? && r.value.fields.Keys <= ConstraintKeys
    ensures r.Ok? ==> Field(r.value, "injuries") == Field(c, "injuries")
    ensures r.Ok? ==> Field(r.value, "dislikes") == FilterTruthy(Field(c, "dislikes")).value
    ensures r.Ok? ==> Field(r.value, "focusWeakPoints") == FilterTruthy(Field(c, "focusWeakPoints")).value
    ensures r.Ok? ==> Field(r.value, "preferExercises") == FilterTruthy(Field(c, "preferExercises")).value
  {
    var dislikes := FilterTruthy(Field(c, "dislikes"));
    var weak := FilterTruthy(Field(c, "focusWeakPoints"));
    var prefer := FilterTruthy(Field(c, "preferExercises"));
    if dislikes.Err? || weak.Err? || prefer.Err? then Err(TypeError)
    else
      var m := Put(Put(Put(Put(map[], "injuries", Field(c, "injuries")), "dislikes", dislikes.value),
        "focusWeakPoints", weak.value), "preferExercises", prefer.value);
      Ok(JObj(m))
  }

  /** Whether the constraints of an accepted request can be rebuilt: a falsy `constraints` is dropped. */
  predicate ConstraintsCleanable(payload: Json) {
    var c := FieldOf(Profile(payload), "constraints");
    c.None? || !Truthy(c.value) || CleanConstraints(c.value).Ok?
  }

  /**
   * `validateInput(payload)`: the first failing condition's message, or
   * the request with its constraints rebuilt.
   */
  function ValidateInput(payload: Json): (r: Result<Json, Failure>)
    ensures r.Ok? <==> InputAccepted(payload) && ConstraintsCleanable(payload)
    ensures !InputAccepted(payload) ==> r == Err(Thrown(InputErrors(payload)[0]))
    ensures InputAccepted(payload) && !ConstraintsCleanable(payload) ==> r == Err(TypeError)
    ensures r.Ok? ==> r.value.JObj? && r.value.fields.Keys == {"weeks", "profile"}
    ensures r.Ok? ==> Field(r.value, "weeks") == Field(payload, "weeks")
  {
    if !IsObject(payload) then Err(Thrown(BodyMessage))
    else if !NumberIn(Field(payload, "weeks"), 4.0, 12.0) then Err(Thrown(WeeksMessage))
    else
      var profile := Profile(payload);
      if profile.None? || !Truthy(profile.value) || !IsObject(profile.value) then Err(Thrown(ProfileMessage))
      else if !InSet(FieldOf(profile, "goal"), Goals) then Err(Thrown(GoalMessage))
      else if !InSet(FieldOf(profile, "level"), Levels) then Err(Thrown(LevelMessage))
      else if !NumberIn(FieldOf(profile, "sessionsPerWeek"), 2.0, 6.0) then Err(Thrown(SessionsMessage))
      else if !IsStringArray(FieldOf(profile, "equipment")) || |FieldOf(profile, "equipment").value.items| == 0 then
        Err(Thrown(EquipmentMessage))
      else if FieldOf(profile, "sessionDurationMin").Some?
        && OutOfRange(LooseNumber(FieldOf(profile, "sessionDurationMin")), 20.0, 120.0) then
        Err(Thrown(DurationMessage))
      else
        var fields := profile.value.fields;
        var c := Field(profile.value, "constraints");
        var rebuilt := if c.Some? && Truthy(c.value) then CleanConstraints(c.value) else Ok(JNull);
        if rebuilt.Err? then Err(TypeError)
        else
          var newProfile := if c.Some? && Truthy(c.value) then fields["constraints" := rebuilt.value]
            else fields - {"constraints"};
          Ok(JObj(map["weeks" := Field(payload, "weeks").value, "profile" := JObj(newProfile)]))
  }

  /**
   * An accepted request keeps every profile field but the constraints; the
   * constraints keep `injuries` and lose the falsy entries of each list.
   */
  lemma AcceptedInputKeepsProfile(payload: Json)
    requires ValidateInput(payload).Ok?
    ensures var out := Profile(ValidateInput(payload).value);
      && out.Some? && out.value.JObj?
      && forall key :: key != "constraints" ==> Field(out.value, key) == FieldOf(Profile(payload), key)
  {
  }

  /** `after` is `list?.filter(Boolean)` of a list that is absent, `null` or an array. */
  predicate ListCleaned(before: Option<Json>, after: Option<Json>) {
    match before
    case None => after.None?
    case Some(JNull) => after.None?
    case Some(JArr(items)) => after == Some(JArr(Seqs.Filter(items, Truthy)))
    case Some(_) => false
  }

  lemma AcceptedInputCleansConstraints(payload: Json)
    requires ValidateInput(payload).Ok?
    requires FieldOf(Profile(payload), "constraints").Some? && Truthy(FieldOf(Profile(payload), "constraints").value)
    ensures var c := FieldOf(Profile(payload), "constraints").value;
      var out := FieldOf(Profile(ValidateInput(payload).value), "constraints");
      && out.Some?
      && Field(out.value, "injuries") == Field(c, "injuries")
      && forall key :: key in ConstraintLists ==> ListCleaned(Field(c, key), Field(out.value, key))
  {
    var c := FieldOf(Profile(payload), "constraints").value;
    var rebuilt := CleanConstraints(c);
    assert rebuilt.Ok?;
    assert FieldOf(Profile(ValidateInput(payload).value), "constraints") == Some(rebuilt.value);
    forall key | key in ConstraintLists
      ensures ListCleaned(Field(c, key), Field(rebuilt.value, key))
    {
      assert Field(rebuilt.value, key) == FilterTruthy(Field(c, key)).value;
    }
  }

  /** After `filter(Boolean)` every entry is truthy, and every truthy entry survives. */
  lemma FilteredListsDropOnlyFalsy(items: seq<Json>)
    ensures forall x :: x in Seqs.Filter(items, Truthy) ==> Truthy(x) && x in items
    ensures forall i :: 0 <= i < |items| && Truthy(items[i]) ==> items[i] in Seqs.Filter(items, Truthy)
  {
  }

  // ---------------------------------------------------------------------
  // extractJsonObject

  const NoJsonMessage: string := "JSON introuvable dans la sortie du modèle."

  /** Some `{` comes no later than some `}`. */
  predicate HasBracedSpan(t: string) {
    exists i, j :: 0 <= i <= j < |t| && t[i] == '{' && t[j] == '}'
  }

  /**
   * `extractJsonObject(value)`: the trimmed text from its first `{` to its
   * last `}`, both included.
   */
  function ExtractJsonObject(value: string): (r: Result<string, Failure>)
    ensures r.Ok? <==> HasBracedSpan(Trim(value))
    ensures r.Err? ==> r.error == Thrown(NoJsonMessage)
    ensures r.Ok? ==> |r.value| >= 2 && r.value[0] == '{' && r.value[|r.value| - 1] == '}'
    ensures r.Ok? ==> exists a :: IsBracedSpanAt(Trim(value), r.value, a)
  {
    var trimmed := Trim(value);
    var start := IndexOf(trimmed, '{');
    var end := LastIndexOf(trimmed, '}');
    if start == -1 || end == -1 || end < start then
      Err(Thrown(NoJsonMessage))
    else
      assert IsBracedSpanAt(trimmed, trimmed[start..end + 1], start);
      Ok(trimmed[start..end + 1])
  }

  /** `span` sits at `a` in `t`, with no `{` before it and no `}` after it. */
  predicate IsBracedSpanAt(t: string, span: string, a: int) {
    && 0 <= a && a + |span| <= |t| && span == t[a..a + |span|]
    && (forall k :: 0 <= k < a ==> t[k] != '{')
    && (forall k :: a + |span| <= k < |t| ==> t[k] != '}')
  }

  /** Text that already runs from a `{` to a `}` extracts to itself. */
  lemma ExtractOfBraced(r: string)
    requires |r| >= 2 && r[0] == '{' && r[|r| - 1] == '}'
    ensures ExtractJsonObject(r) == Ok(r)
  {
    TrimOfUnpadded(r);
    assert IndexOf(r, '{') == 0;
    assert LastIndexOf(r, '}') == |r| - 1;
    assert r[0..|r|] == r;
  }

  /** The extracted object extracts to itself. */
  lemma ExtractJsonObjectIdempotent(value: string)
    requires ExtractJsonObject(value).Ok?
    ensures ExtractJsonObject(ExtractJsonObject(value).value) == ExtractJsonObject(value)
  {
    ExtractOfBraced(ExtractJsonObject(value).value);
  }

  // ---------------------------------------------------------------------
  // validatePlan

  const PlanMessage: string := "Plan JSON invalide."
  const TitleMessage: string := "title/overview invalides."
  const PlanWeeksMessage: string := "weeks du plan invalide."
  const PlanSessionsMessage: string := "sessionsPerWeek du plan invalide."
  const WeekPlansMessage: string := "weekPlans doit avoir la même longueur que weeks."
  const SafetyMessage: string := "safetyNotes invalide."
  const WeekSessionsMessage: string := "Nombre de sessions hebdo invalide."
  const ExerciseCountMessage: string := "Chaque session doit avoir 4 à 8 exercices."
  const RestMessage: string := "restSec doit être entre 30 et 240."

  /** The failure of the first element that fails `check`, if any. */
  function FirstFailure<T>(xs: seq<T>, check: T -> Option<Failure>): Option<Failure> {
    if xs == [] then None
    else if check(xs[0]).Some? then check(xs[0])
    else FirstFailure(xs[1..], check)
  }

  /** No failure exactly when every element passes; a failure is that of an element after which none failed. */
  lemma {:induction false} FirstFailureMeaning<T>(xs: seq<T>, check: T -> Option<Failure>)
    ensures FirstFailure(xs, check).None? <==> forall i :: 0 <= i < |xs| ==> check(xs[i]).None?
    ensures FirstFailure(xs, check).Some? ==>
      exists i :: 0 <= i < |xs| && check(xs[i]) == FirstFailure(xs, check) && forall j :: 0 <= j < i ==> check(xs[j]).None?
  {
    if xs != [] && check(xs[0]).None? {
      FirstFailureMeaning(xs[1..], check);
      assert forall i :: 1 <= i < |xs| ==> xs[i] == xs[1..][i - 1];
      if FirstFailure(xs[1..], check).Some? {
        var k :| 0 <= k < |xs[1..]| && check(xs[1..][k]) == FirstFailure(xs[1..], check)
          && forall j :: 0 <= j < k ==> check(xs[1..][j]).None?;
        assert check(xs[k + 1]) == FirstFailure(xs, check);
      }
    }
  }

  /** Once a prefix passes, the first failure is that of the next element that fails. */
  lemma {:induction false} FirstFailureAt<T>(xs: seq<T>, i: nat, check: T -> Option<Failure>)
    requires i < |xs| && FirstFailure(xs[..i], check).None? && check(xs[i]).Some?
    ensures FirstFailure(xs, check) == check(xs[i])
    decreases i
  {
    if i > 0 {
      assert xs[..i][0] == xs[0];
      assert xs[..i][1..] == xs[1..][..i - 1];
      FirstFailureAt(xs[1..], i - 1, check);
    }
  }

  /** A prefix that passes, extended by one element. */
  lemma {:induction false} FirstFailureNext<T>(xs: seq<T>, i: nat, check: T -> Option<Failure>)
    requires i < |xs| && FirstFailure(xs[..i], check).None? && check(xs[i]).None?
    ensures FirstFailure(xs[..i + 1], check).None?
    decreases i
  {
    if i > 0 {
      assert xs[..i][0] == xs[0];
      assert xs[..i][1..] == xs[1..][..i - 1];
      assert xs[..i + 1][1..] == xs[1..][..i];
      FirstFailureNext(xs[1..], i - 1, check);
    } else {
      assert xs[..1][1..] == [];
    }
  }

  /**
   * One exercise: reading `restSec` of `null` throws. A missing rest, or one
   * JavaScript compares as NaN (an object, non-blank text, a non-empty
   * array), passes; `null`, booleans and blank text compare as 0 or 1 and fail.
   */
  function ExerciseCheck(e: Json): Option<Failure> {
    if e == JNull then Some(TypeError)
    else if OutOfRange(LooseNumber(Field(e, "restSec")), 30.0, 240.0) then Some(Thrown(RestMessage))
    else None
  }

  predicate ExerciseOk(e: Json) {
    e != JNull && !OutOfRange(LooseNumber(Field(e, "restSec")), 30.0, 240.0)
  }

  /** One session: an array of four to eight exercises, each passing. */
  function SessionCheck(s: Json): Option<Failure> {
    if s == JNull then Some(TypeError)
    else
      var exercises := Field(s, "exercises");
      if exercises.None? || !exercises.value.JArr? || |exercises.value.items| < 4 || |exercises.value.items| > 8 then
        Some(Thrown(ExerciseCountMessage))
      else FirstFailure(exercises.value.items, ExerciseCheck)
  }

  predicate SessionOk(s: Json) {
    var exercises := Field(s, "exercises");
    && s != JNull && exercises.Some? && exercises.value.JArr?
    && 4 <= |exercises.value.items| <= 8
    && forall e :: e in exercises.value.items ==> ExerciseOk(e)
  }

  /** One week: exactly `sessionsPerWeek` sessions, each passing. */
  function WeekCheck(w: Json, sessionsPerWeek: real): Option<Failure> {
    if w == JNull then Some(TypeError)
    else
      var sessions := Field(w, "sessions");
      if sessions.None? || !sessions.value.JArr? || |sessions.value.items| as real != sessionsPerWeek then
        Some(Thrown(WeekSessionsMessage))
      else FirstFailure(sessions.value.items, SessionCheck)
  }

  predicate WeekOk(w: Json, sessionsPerWeek: real) {
    var sessions := Field(w, "sessions");
    && w != JNull && sessions.Some? && sessions.value.JArr?
    && |sessions.value.items| as real == sessionsPerWeek
    && forall s :: s in sessions.value.items ==> SessionOk(s)
  }

  function WeekCheckFor(sessionsPerWeek: real): Json -> Option<Failure> {
    w => WeekCheck(w, sessionsPerWeek)
  }

  /** The plan-level conditions, checked before any week. */
  predicate PlanHeaderOk(plan: Json) {
    var weeks := Field(plan, "weeks");
    var weekPlans := Field(plan, "weekPlans");
    && IsObject(plan)
    && Field(plan, "title").Some? && Field(plan, "title").value.JStr?
    && Field(plan, "overview").Some? && Field(plan, "overview").value.JStr?
    && NumberIn(weeks, 4.0, 12.0)
    && NumberIn(Field(plan, "sessionsPerWeek"), 2.0, 6.0)
    && weekPlans.Some? && weekPlans.value.JArr? && |weekPlans.value.items| as real == weeks.value.n
    && IsStringArray(Field(plan, "safetyNotes"))
  }

  /** An accepted plan: its header and every week, session and exercise pass. */
  predicate PlanAccepted(plan: Json) {
    && PlanHeaderOk(plan)
    && forall w :: w in Field(plan, "weekPlans").value.items ==> WeekOk(w, Field(plan, "sessionsPerWeek").value.n)
  }

  const HeaderMessages: set<string> :=
    {PlanMessage, TitleMessage, PlanWeeksMessage, PlanSessionsMessage, WeekPlansMessage, SafetyMessage}

  /**
   * What `validatePlan(plan)` does: the first failed header condition's
   * message, then the first failure week by week, or the plan as given.
   */
  function PlanVerdict(plan: Json): (r: Result<Json, Failure>)
    ensures r.Ok? ==> r.value == plan
    ensures !IsObject(plan) ==> r == Err(Thrown(PlanMessage))
    ensures !PlanHeaderOk(plan) ==> r.Err? && r.error.Thrown? && r.error.message in HeaderMessages
  {
    if !IsObject(plan) then Err(Thrown(PlanMessage))
    else
      var title, overview := Field(plan, "title"), Field(plan, "overview");
      if title.None? || !title.value.JStr? || overview.None? || !overview.value.JStr? then Err(Thrown(TitleMessage))
      else if !NumberIn(Field(plan, "weeks"), 4.0, 12.0) then Err(Thrown(PlanWeeksMessage))
      else if !NumberIn(Field(plan, "sessionsPerWeek"), 2.0, 6.0) then Err(Thrown(PlanSessionsMessage))
      else
        var weekPlans := Field(plan, "weekPlans");
        if weekPlans.None? || !weekPlans.value.JArr? || |weekPlans.value.items| as real != Field(plan, "weeks").value.n then
          Err(Thrown(WeekPlansMessage))
        else if !IsStringArray(Field(plan, "safetyNotes")) then Err(Thrown(SafetyMessage))
        else
          var spw := Field(plan, "sessionsPerWeek").value.n;
          var failure := FirstFailure(weekPlans.value.items, WeekCheckFor(spw));
          if failure.Some? then Err(failure.value) else Ok(plan)
  }

  lemma ExerciseCheckMeaning(e: Json)
    ensures ExerciseCheck(e).None? <==> ExerciseOk(e)
    ensures ExerciseCheck(e).Some? ==> ExerciseCheck(e).value in {TypeError, Thrown(RestMessage)}
  {
  }

  /** A session passes exactly when it has four to eight exercises and each passes. */
  lemma SessionCheckMeaning(s: Json)
    ensures SessionCheck(s).None? <==> SessionOk(s)
  {
    var exercises := Field(s, "exercises");
    if s != JNull && exercises.Some? && exercises.value.JArr? && 4 <= |exercises.value.items| <= 8 {
      var items := exercises.value.items;
      FirstFailureMeaning(items, ExerciseCheck);
      forall e | e in items
        ensures ExerciseCheck(e).None? <==> ExerciseOk(e)
      {
        ExerciseCheckMeaning(e);
      }
    }
  }

  /** A week passes exactly when it has `sessionsPerWeek` sessions and each passes. */
  lemma WeekCheckMeaning(w: Json, sessionsPerWeek: real)
    ensures WeekCheck(w, sessionsPerWeek).None? <==> WeekOk(w, sessionsPerWeek)
  {
    var sessions := Field(w, "sessions");
    if w != JNull && sessions.Some? && sessions.value.JArr? && |sessions.value.items| as real == sessionsPerWeek {
      FirstFailureMeaning(sessions.value.items, SessionCheck);
      forall s | s in sessions.value.items
        ensures SessionCheck(s).None? <==> SessionOk(s)
      {
        SessionCheckMeaning(s);
      }
    }
  }

  /**
   * `validatePlan` accepts exactly the plans whose header and every week pass,
   * returns them unchanged, and otherwise reports a header message or the
   * first failing week's error.
   */
  lemma PlanVerdictMeaning(plan: Json)
    ensures PlanVerdict(plan).Ok? <==> PlanAccepted(plan)
    ensures PlanVerdict(plan).Ok? ==> PlanVerdict(plan).value == plan
    ensures !PlanHeaderOk(plan) ==>
      PlanVerdict(plan).Err? && PlanVerdict(plan).error.Thrown? && PlanVerdict(plan).error.message in HeaderMessages
    ensures PlanHeaderOk(plan) && PlanVerdict(plan).Err? ==>
      PlanVerdict(plan).error
        == FirstFailure(Field(plan, "weekPlans").value.items, WeekCheckFor(Field(plan, "sessionsPerWeek").value.n)).value
  {
    if PlanHeaderOk(plan) {
      var spw := Field(plan, "sessionsPerWeek").value.n;
      FirstFailureMeaning(Field(plan, "weekPlans").value.items, WeekCheckFor(spw));
      forall w | w in Field(plan, "weekPlans").value.items
        ensures WeekCheckFor(spw)(w).None? <==> WeekOk(w, spw)
      {
        WeekCheckMeaning(w, spw);
      }
    }
  }

  /** The exercise loop of one session. */
  method CheckSession(session: Json) returns (r: Option<Failure>)
    ensures r == SessionCheck(session)
  {
    if session == JNull {
      return Some(TypeError);
    }
    var exercises := Field(session, "exercises");
    if exercises.None? || !exercises.value.JArr? || |exercises.value.items| < 4 || |exercises.value.items| > 8 {
      return Some(Thrown(ExerciseCountMessage));
    }
    var items := exercises.value.items;
    var i := 0;
    while i < |items|
      invariant 0 <= i <= |items|
      invariant FirstFailure(items[..i], ExerciseCheck).None?
    {
      var e := items[i];
      if e == JNull {
        FirstFailureAt(items, i, ExerciseCheck);
        return Some(TypeError);
      }
      var rest := LooseNumber(Field(e, "restSec"));
      if rest.Some? && (rest.value < 30.0 || rest.value > 240.0) {
        FirstFailureAt(items, i, ExerciseCheck);
        return Some(Thrown(RestMessage));
      }
      FirstFailureNext(items, i, ExerciseCheck);
      i := i + 1;
    }
    assert items[..i] == items;
    return None;
  }

  /** The session loop of one week. */
  method CheckWeek(week: Json, sessionsPerWeek: real) returns (r: Option<Failure>)
    ensures r == WeekCheck(week, sessionsPerWeek)
  {
    if week == JNull {
      return Some(TypeError);
    }
    var sessions := Field(week, "sessions");
    if sessions.None? || !sessions.value.JArr? || |sessions.value.items| as real != sessionsPerWeek {
      return Some(Thrown(WeekSessionsMessage));
    }
    var items := sessions.value.items;
    var i := 0;
    while i < |items|
      invariant 0 <= i <= |items|
      invariant FirstFailure(items[..i], SessionCheck).None?
    {
      var failure := CheckSession(items[i]);
      if failure.Some? {
        FirstFailureAt(items, i, SessionCheck);
        return failure;
      }
      FirstFailureNext(items, i, SessionCheck);
      i := i + 1;
    }
    assert items[..i] == items;
    return None;
  }

  /** `validatePlan(plan)`: the header checks, then the nested week, session and exercise loops. */
  method ValidatePlan(plan: Json) returns (r: Result<Json, Failure>)
    ensures r == PlanVerdict(plan)
  {
    if !IsObject(plan) {
      return Err(Thrown(PlanMessage));
    }
    var title, overview := Field(plan, "title"), Field(plan, "overview");
    if title.None? || !title.value.JStr? || overview.None? || !overview.value.JStr? {
      return Err(Thrown(TitleMessage));
    }
    if !NumberIn(Field(plan, "weeks"), 4.0, 12.0) {
      return Err(Thrown(PlanWeeksMessage));
    }
    if !NumberIn(Field(plan, "sessionsPerWeek"), 2.0, 6.0) {
      return Err(Thrown(PlanSessionsMessage));
    }
    var weekPlans := Field(plan, "weekPlans");
    if weekPlans.None? || !weekPlans.value.JArr? || |weekPlans.value.items| as real != Field(plan, "weeks").value.n {
      return Err(Thrown(WeekPlansMessage));
    }
    if !IsStringArray(Field(plan, "safetyNotes")) {
      return Err(Thrown(SafetyMessage));
    }
    var spw := Field(plan, "sessionsPerWeek").value.n;
    var weeks := weekPlans.value.items;
    var i := 0;
    while i < |weeks|
      invariant 0 <= i <= |weeks|
      invariant FirstFailure(weeks[..i], WeekCheckFor(spw)).None?
    {
      var failure := CheckWeek(weeks[i], spw);
      if failure.Some? {
        FirstFailureAt(weeks, i, WeekCheckFor(spw));
        return Err(failure.value);
      }
      FirstFailureNext(weeks, i, WeekCheckFor(spw));
      i := i + 1;
    }
    assert weeks[..i] == weeks;
    return Ok(plan);
  }

  /** The elements of an array field, none for anything else. */
  function Items(v: Option<Json>): seq<Json> {
    if v.Some? && v.value.JArr? then v.value.items else []
  }

  /** An accepted plan has as many weeks as it announces, and each week `sessionsPerWeek` sessions. */
  lemma AcceptedPlanShape(plan: Json)
    requires PlanVerdict(plan).Ok?
    ensures NumberIn(Field(plan, "weeks"), 4.0, 12.0) && NumberIn(Field(plan, "sessionsPerWeek"), 2.0, 6.0)
    ensures Field(plan, "weekPlans").Some? && Field(plan, "weekPlans").value.JArr?
    ensures |Items(Field(plan, "weekPlans"))| as real == Field(plan, "weeks").value.n
    ensures forall w :: w in Items(Field(plan, "weekPlans")) ==>
      (&& Field(w, "sessions").Some? && Field(w, "sessions").value.JArr?
       && |Items(Field(w, "sessions"))| as real == Field(plan, "sessionsPerWeek").value.n)
  {
    PlanVerdictMeaning(plan);
  }

  /** In an accepted plan every session holds four to eight exercises and a numeric rest lies between 30 and 240 seconds. */
  lemma AcceptedRestInRange(plan: Json, w: Json, s: Json, e: Json)
    requires PlanVerdict(plan).Ok?
    requires w in Items(Field(plan, "weekPlans")) && s in Items(Field(w, "sessions"))
    ensures 4 <= |Items(Field(s, "exercises"))| <= 8
    ensures e in Items(Field(s, "exercises")) && Field(e, "restSec").Some? && Field(e, "restSec").value.JNum? ==>
      30.0 <= Field(e, "restSec").value.n <= 240.0
  {
    PlanVerdictMeaning(plan);
  }

  // ---------------------------------------------------------------------
  // getModelText

  /** `for (const x of v ?? [])`: the elements iterated, or the `TypeError` of a value that is not iterable. */
  function Iterated(v: Option<Json>): (r: Result<seq<Json>, Failure>)
    ensures r.Err? ==> r.error == TypeError
    ensures v.None? || v.value == JNull ==> r == Ok([])
    ensures v.Some? && v.value.JArr? ==> r == Ok(v.value.items)
  {
    match v
    case None => Ok([])
    case Some(JNull) => Ok([])
    case Some(JArr(items)) => Ok(items)
    case Some(JStr(s)) => Ok(seq(|s|, i requires 0 <= i < |s| => JStr([s[i]])))
    case Some(_) => Err(TypeError)
  }

  /** The concatenated outputs of `f` over `xs`, or the first error. */
  function Collect(xs: seq<Json>, f: Json -> Result<seq<Json>, Failure>): (r: Result<seq<Json>, Failure>)
    ensures r.Err? ==> exists i :: 0 <= i < |xs| && f(xs[i]) == Err(r.error)
  {
    if xs == [] then Ok([])
    else
      match f(xs[0])
      case Err(e) => Err(e)
      case Ok(a) =>
        match Collect(xs[1..], f)
        case Err(e) =>
          assert forall i :: 1 <= i < |xs| ==> xs[i] == xs[1..][i - 1];
          Err(e)
        case Ok(b) => Ok(a + b)
  }

  /** Collecting over a concatenation collects each part. */
  lemma {:induction false} CollectAppend(xs: seq<Json>, ys: seq<Json>, f: Json -> Result<seq<Json>, Failure>)
    ensures Collect(xs + ys, f) ==
      match Collect(xs, f)
      case Err(e) => Err(e)
      case Ok(a) =>
        match Collect(ys, f)
        case Err(e) => Err(e)
        case Ok(b) => Ok(a + b)
  {
    if xs == [] {
      assert xs + ys == ys;
      assert forall b: seq<Json> :: [] + b == b;
    } else {
      assert (xs + ys)[1..] == xs[1..] + ys;
      CollectAppend(xs[1..], ys, f);
      match f(xs[0])
      case Err(_) =>
      case Ok(a) =>
        match Collect(xs[1..], f)
        case Err(_) =>
        case Ok(b) =>
          match Collect(ys, f)
          case Err(_) =>
          case Ok(c) => assert a + (b + c) == (a + b) + c;
    }
  }

  /** One more element: its output is appended, or its error ends the collection. */
  lemma CollectNext(xs: seq<Json>, i: nat, f: Json -> Result<seq<Json>, Failure>, acc: seq<Json>)
    requires i < |xs| && Collect(xs[..i], f) == Ok(acc)
    ensures f(xs[i]).Ok? ==> Collect(xs[..i + 1], f) == Ok(acc + f(xs[i]).value)
    ensures f(xs[i]).Err? ==> Collect(xs, f) == Err(f(xs[i]).error)
  {
    assert xs[..i + 1] == xs[..i] + [xs[i]];
    CollectAppend(xs[..i], [xs[i]], f);
    assert Collect([xs[i]], f) == match f(xs[i]) case Err(e) => Err(e) case Ok(a) => Ok(a + []);
    assert f(xs[i]).Ok? ==> f(xs[i]).value + [] == f(xs[i]).value;
    assert xs == xs[..i] + xs[i..];
    CollectAppend(xs[..i], xs[i..], f);
    assert xs[i..][0] == xs[i];
  }

  /** One content part: its `text` when it is a truthy `output_text`; reading `type` of `null` throws. */
  function ContentChunk(content: Json): (r: Result<seq<Json>, Failure>)
    ensures r.Err? <==> content == JNull
    ensures r.Err? ==> r.error == TypeError
    ensures r.Ok? ==> |r.value| <= 1 && forall t :: t in r.value ==> Truthy(t)
  {
    if content == JNull then Err(TypeError)
    else
      var text := Field(content, "text");
      if Field(content, "type") == Some(JStr("output_text")) && text.Some? && Truthy(text.value) then Ok([text.value])
      else Ok([])
  }

  /** One output item: the chunks of its content when it is a `message`. */
  function ItemChunks(item: Json): (r: Result<seq<Json>, Failure>)
    ensures r.Err? ==> r.error == TypeError
  {
    if item == JNull then Err(TypeError)
    else if Field(item, "type") != Some(JStr("message")) then Ok([])
    else
      match Iterated(Field(item, "content"))
      case Err(e) => Err(e)
      case Ok(contents) => Collect(contents, ContentChunk)
  }

  /** `chunks.join('\n')`; `stringOf` is JavaScript's conversion of a non-string chunk to text. */
  function JoinChunks(chunks: seq<Json>, stringOf: Json -> string): string {
    Join(seq(|chunks|, i requires 0 <= i < |chunks| => if chunks[i].JStr? then chunks[i].s else stringOf(chunks[i])), "\n")
  }

  /**
   * What `getModelText(payload)` returns: `''` for a non-object, a truthy
   * `output_text` as it is, otherwise the message chunks joined by newlines.
   */
  function ModelText(payload: Json, stringOf: Json -> string): (r: Result<Json, Failure>)
    ensures !IsObject(payload) ==> r == Ok(JStr(""))
    ensures IsObject(payload) && Field(payload, "output_text").Some? && Truthy(Field(payload, "output_text").value) ==>
      r == Ok(Field(payload, "output_text").value)
    ensures r.Err? ==> r.error == TypeError
  {
    if !IsObject(payload) then Ok(JStr(""))
    else
      var outputText := Field(payload, "output_text");
      if outputText.Some? && Truthy(outputText.value) then Ok(outputText.value)
      else
        match Iterated(Field(payload, "output"))
        case Err(e) => Err(e)
        case Ok(items) =>
          match Collect(items, ItemChunks)
          case Err(e) => Err(e)
          case Ok(chunks) => Ok(JStr(JoinChunks(chunks, stringOf)))
  }

  /** The content loop of one message item, pushing its chunks after `chunks`. */
  method PushContentChunks(contents: seq<Json>, chunks: seq<Json>) returns (r: Result<seq<Json>, Failure>)
    ensures Collect(contents, ContentChunk).Err? ==> r == Err(Collect(contents, ContentChunk).error)
    ensures Collect(contents, ContentChunk).Ok? ==> r == Ok(chunks + Collect(contents, ContentChunk).value)
  {
    var out := chunks;
    ghost var inner := [];
    var k := 0;
    while k < |contents|
      invariant 0 <= k <= |contents|
      invariant Collect(contents[..k], ContentChunk) == Ok(inner)
      invariant out == chunks + inner
    {
      var c := contents[k];
      CollectNext(contents, k, ContentChunk, inner);
      if c == JNull {
        return Err(TypeError);
      }
      var text := Field(c, "text");
      if Field(c, "type") == Some(JStr("output_text")) && text.Some? && Truthy(text.value) {
        out := out + [text.value];
        inner := inner + [text.value];
        assert ContentChunk(c) == Ok([text.value]);
      } else {
        assert ContentChunk(c) == Ok([]);
        assert inner + [] == inner;
      }
      k := k + 1;
    }
    assert contents[..k] == contents;
    return Ok(out);
  }

  /** `getModelText(payload)`: the item and content loops pushing chunks. */
  method GetModelText(payload: Json, stringOf: Json -> string) returns (r: Result<Json, Failure>)
    ensures r == ModelText(payload, stringOf)
  {
    if !IsObject(payload) {
      return Ok(JStr(""));
    }
    var outputText := Field(payload, "output_text");
    if outputText.Some? && Truthy(outputText.value) {
      return Ok(outputText.value);
    }
    var chunks: seq<Json> := [];
    var output := Iterated(Field(payload, "output"));
    if output.Err? {
      return Err(output.error);
    }
    var items := output.value;
    var i := 0;
    while i < |items|
      invariant 0 <= i <= |items|
      invariant Collect(items[..i], ItemChunks) == Ok(chunks)
    {
      var item := items[i];
      if item == JNull {
        CollectNext(items, i, ItemChunks, chunks);
        return Err(TypeError);
      }
      if Field(item, "type") != Some(JStr("message")) {
        CollectNext(items, i, ItemChunks, chunks);
        assert chunks + [] == chunks;
        i := i + 1;
        continue;
      }
      var content := Iterated(Field(item, "content"));
      if content.Err? {
        CollectNext(items, i, ItemChunks, chunks);
        return Err(content.error);
      }
      var pushed := PushContentChunks(content.value, chunks);
      CollectNext(items, i, ItemChunks, chunks);
      if pushed.Err? {
        return Err(pushed.error);
      }
      chunks := pushed.value;
      i := i + 1;
    }
    assert items[..i] == items;
    return Ok(JStr(JoinChunks(chunks, stringOf)));
  }

  /** Text values as JSON strings. */
  function Strs(ts: seq<string>): (r: seq<Json>)
    ensures |r| == |ts| && forall i :: 0 <= i < |ts| ==> r[i] == JStr(ts[i])
  {
    if ts == [] then [] else [JStr(ts[0])] + Strs(ts[1..])
  }

  /** A reply's shape: its `output` lists `message` items whose content parts are `output_text`s. */
  function TextParts(texts: seq<string>): seq<Json> {
    if texts == [] then []
    else [JObj(map["type" := JStr("output_text"), "text" := JStr(texts[0])])] + TextParts(texts[1..])
  }

  function MessageItem(texts: seq<string>): Json {
    JObj(map["type" := JStr("message"), "content" := JArr(TextParts(texts))])
  }

  function MessageItems(messages: seq<seq<string>>): seq<Json> {
    if messages == [] then [] else [MessageItem(messages[0])] + MessageItems(messages[1..])
  }

  function Reply(messages: seq<seq<string>>): Json {
    JObj(map["output" := JArr(MessageItems(messages))])
  }

  function Flatten(messages: seq<seq<string>>): seq<string> {
    if messages == [] then [] else messages[0] + Flatten(messages[1..])
  }

  lemma {:induction false} StrsAppend(a: seq<string>, b: seq<string>)
    ensures Strs(a + b) == Strs(a) + Strs(b)
  {
  }

  /** The chunks of one message are its non-empty texts. */
  lemma {:induction false} MessageChunks(texts: seq<string>)
    ensures Collect(TextParts(texts), ContentChunk) == Ok(Strs(Seqs.Filter(texts, NonEmpty)))
  {
    if texts != [] {
      MessageChunks(texts[1..]);
      StrsAppend(if texts[0] != "" then [texts[0]] else [], Seqs.Filter(texts[1..], NonEmpty));
    }
  }

  lemma MessageItemChunks(texts: seq<string>)
    ensures ItemChunks(MessageItem(texts)) == Ok(Strs(Seqs.Filter(texts, NonEmpty)))
  {
    var item := MessageItem(texts);
    assert Field(item, "type") == Some(JStr("message"));
    assert Iterated(Field(item, "content")) == Ok(TextParts(texts));
    MessageChunks(texts);
  }

  /** Collecting over one more element in front. */
  lemma CollectCons(x: Json, xs: seq<Json>, f: Json -> Result<seq<Json>, Failure>, a: seq<Json>, b: seq<Json>)
    requires f(x) == Ok(a) && Collect(xs, f) == Ok(b)
    ensures Collect([x] + xs, f) == Ok(a + b)
  {
    assert ([x] + xs)[0] == x;
    assert ([x] + xs)[1..] == xs;
  }

  /** The chunks of all messages are their non-empty texts, in order. */
  lemma {:induction false} ReplyChunks(messages: seq<seq<string>>)
    ensures Collect(MessageItems(messages), ItemChunks) == Ok(Strs(Seqs.Filter(Flatten(messages), NonEmpty)))
  {
    if messages != [] {
      var first, rest := messages[0], messages[1..];
      var a, b := Seqs.Filter(first, NonEmpty), Seqs.Filter(Flatten(rest), NonEmpty);
      ReplyChunks(rest);
      MessageItemChunks(first);
      CollectCons(MessageItem(first), MessageItems(rest), ItemChunks, Strs(a), Strs(b));
      assert Flatten(messages) == first + Flatten(rest);
      Seqs.FilterAppend(first, Flatten(rest), NonEmpty);
      StrsAppend(a, b);
    }
  }

  /** Joining string chunks joins their texts. */
  lemma JoinStrs(ts: seq<string>, stringOf: Json -> string)
    ensures JoinChunks(Strs(ts), stringOf) == Join(ts, "\n")
  {
    var chunks := Strs(ts);
    assert seq(|chunks|, i requires 0 <= i < |chunks| => if chunks[i].JStr? then chunks[i].s else stringOf(chunks[i])) == ts;
  }

  /** A reply without `output_text` reads as its messages' non-empty texts joined by newlines. */
  lemma ReplyText(messages: seq<seq<string>>, stringOf: Json -> string)
    ensures ModelText(Reply(messages), stringOf) == Ok(JStr(Join(Seqs.Filter(Flatten(messages), NonEmpty), "\n")))
  {
    var reply := Reply(messages);
    assert Field(reply, "output_text") == None;
    assert Iterated(Field(reply, "output")) == Ok(MessageItems(messages));
    ReplyChunks(messages);
    JoinStrs(Seqs.Filter(Flatten(messages), NonEmpty), stringOf);
  }
}
