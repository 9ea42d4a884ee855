/**
 * lib/cycle/cycle.ts: the four-week training cycle (three loading weeks, one
 * deload week) and the deload transformation of a recommendation.
 *
 * Calendar dates are day numbers in the device's local calendar, day 0 being
 * Thursday 1970-01-01; a week runs Monday to Sunday.
 */
module Cycle {
  import opened Wrappers
  import opened Types
  import opened Text
  import Progression

  /** `getDay()`: 0 for Sunday, 1 for Monday, ..., 6 for Saturday. */
  function Weekday(day: int): (w: int)
    ensures 0 <= w < 7
  {
    (day + 4) % 7
  }

  /** `weekStart(date)`: the Monday of the week holding `day`. */
  function WeekStart(day: int): (monday: int)
    ensures Weekday(monday) == 1
    ensures day - 6 <= monday <= day
  {
    var wd := Weekday(day);
    var diff := if wd == 0 then -6 else 1 - wd;
    day + diff
  }

  /** Every day of a Monday-to-Sunday week has that Monday as its week start. */
  lemma WeekStartOfSameWeek(day: int, other: int)
    requires WeekStart(day) <= other < WeekStart(day) + 7
    ensures WeekStart(other) == WeekStart(day)
  {
    var m, m2 := WeekStart(day), WeekStart(other);
    assert (m + 4) % 7 == 1 && (m2 + 4) % 7 == 1;
    assert m - 6 < m2 < m + 7;
    assert (m2 - m) % 7 == 0;
  }

  lemma WeekStartIdempotent(day: int)
    ensures WeekStart(WeekStart(day)) == WeekStart(day)
  {
    WeekStartOfSameWeek(day, WeekStart(day));
  }

  /** JavaScript's `%`: the remainder takes the sign of the dividend. */
  function JsRem(a: int, b: int): (r: int)
    requires b > 0
    ensures -b < r < b
    ensures a >= 0 ==> r == a % b
    ensures a < 0 ==> r <= 0
  {
    if a >= 0 then a % b else -((-a) % b)
  }

  /** Whole weeks from the week of `cycleStart` to the week of `today`, rounded down. */
  function WeeksBetween(cycleStart: int, today: int): int {
    (WeekStart(today) - WeekStart(cycleStart)) / 7
  }

  /** `getCycleWeek(cycleStartDate, today)`: the week of the cycle, 1 to 4. */
  function GetCycleWeek(cycleStart: int, today: int): (week: int)
    ensures 1 <= week <= 4
    ensures week == WeeksBetween(cycleStart, today) % 4 + 1
  {
    var diffWeeks := WeeksBetween(cycleStart, today);
    var inner := JsRem(diffWeeks, 4);
    assert diffWeeks < 0 ==> inner == -((-diffWeeks) % 4) && (inner + 4) % 4 == diffWeeks % 4;
    var normalized := JsRem(inner + 4, 4);
    normalized + 1
  }

  /** `isDeloadWeek(week)`: the last week of the cycle; the week after it starts a new cycle. */
  predicate IsDeloadWeek(week: int)
    ensures IsDeloadWeek(week) ==> week % 4 + 1 == 1
    ensures 1 <= week <= 3 ==> !IsDeloadWeek(week)
  {
    week == 4
  }

  /** The first week of a cycle is week 1. */
  lemma StartWeekIsOne(cycleStart: int, today: int)
    requires WeekStart(cycleStart) <= today < WeekStart(cycleStart) + 7
    ensures GetCycleWeek(cycleStart, today) == 1
  {
    WeekStartOfSameWeek(cycleStart, today);
  }

  /** One week later the cycle advances by one week, wrapping from 4 to 1. */
  lemma NextWeekAdvances(cycleStart: int, today: int)
    ensures GetCycleWeek(cycleStart, today + 7) == GetCycleWeek(cycleStart, today) % 4 + 1
  {
    WeekStartShift(today);
    var w := WeeksBetween(cycleStart, today);
    DivShift(WeekStart(today) - WeekStart(cycleStart));
    ModStep(w);
  }

  /** The deload week comes every fourth week, counted from the week of the cycle start. */
  lemma DeloadEveryFourthWeek(cycleStart: int, today: int)
    ensures IsDeloadWeek(GetCycleWeek(cycleStart, today)) <==> WeeksBetween(cycleStart, today) % 4 == 3
  {
  }

  lemma WeekStartShift(day: int)
    ensures WeekStart(day + 7) == WeekStart(day) + 7
  {
    assert Weekday(day + 7) == Weekday(day);
  }

  lemma DivShift(x: int)
    ensures (x + 7) / 7 == x / 7 + 1
  {
  }

  lemma ModStep(w: int)
    ensures (w + 1) % 4 + 1 == (w % 4 + 1) % 4 + 1
  {
  }

  /** The cycle repeats every four weeks. */
  lemma CycleRepeatsEveryFourWeeks(cycleStart: int, today: int)
    ensures GetCycleWeek(cycleStart, today + 28) == GetCycleWeek(cycleStart, today)
  {
    NextWeekAdvances(cycleStart, today);
    NextWeekAdvances(cycleStart, today + 7);
    NextWeekAdvances(cycleStart, today + 14);
    NextWeekAdvances(cycleStart, today + 21);
    FourSteps(GetCycleWeek(cycleStart, today));
  }

  lemma FourSteps(g: int)
    requires 1 <= g <= 4
    ensures (((g % 4 + 1) % 4 + 1) % 4 + 1) % 4 + 1 == g
  {
  }

  /** `normalizeSets(sets)`: the first number in the text when positive, else 3. */
  function NormalizeSets(sets: string): (n: int)
    ensures n > 0
    ensures Numbers(sets) != [] && Numbers(sets)[0] > 0 ==> n == Numbers(sets)[0]
    ensures Numbers(sets) == [] || Numbers(sets)[0] == 0 ==> n == 3
  {
    var found := Numbers(sets);
    if found != [] && found[0] > 0 then found[0] else 3
  }

  /** A positive count printed in decimal reads back as itself. */
  lemma NormalizeSetsOfCount(n: nat)
    requires n > 0
    ensures NormalizeSets(NatToString(n)) == n
  {
    NumbersOfDigitsThen(NatToString(n), []);
    assert NatToString(n) + [] == NatToString(n);
  }

  /** What `applyDeload` returns; `note` and `progressionNote` are "" when absent. */
  datatype DeloadedExercise = DeloadedExercise(
    sets: string,
    note: string,
    recommendedWeight: Option<real>,
    progressionNote: string)

  const DeloadLoadNote: string := "Deload: volume et charge réduites cette semaine."
  const DeloadVolumeNote: string := "Deload: volume réduit, garde la charge et vise RPE 6-7."
  const DeloadRpeSuffix: string := " (Deload: vise RPE 6-7)"
  const DeloadRpeNote: string := "Deload: vise RPE 6-7 à charge constante."

  /**
   * `applyDeload({ exercise, recommendation })`: one set fewer (at least two),
   * and the load cut to 90 % when there is one, otherwise an RPE cue.
   */
  function ApplyDeload(sets: string, rec: Progression.Recommendation): (d: DeloadedExercise)
    ensures d.sets == NatToString(Max(2, NormalizeSets(sets) - 1))
    ensures NormalizeSets(d.sets) == Max(2, NormalizeSets(sets) - 1)
    ensures d.recommendedWeight.Some? <==> rec.recommendedWeight.Some?
    ensures rec.recommendedWeight.Some? ==>
      d.recommendedWeight == Some(Progression.Max0(Progression.RoundToHalf(rec.recommendedWeight.value * 0.9)))
    ensures rec.recommendedWeight.Some? ==>
      var w, v := rec.recommendedWeight.value, d.recommendedWeight.value;
      Progression.IsHalfMultiple(v) && 0.0 <= v
      && (w >= 0.0 ==> w * 0.9 - 0.25 < v)
      && (w >= 0.0 ==> v <= w * 0.9 + 0.25)
      && (w > 2.5 ==> v < w)
      && d.note == DeloadLoadNote && d.progressionNote == rec.progressionNote
    ensures rec.recommendedWeight.None? ==>
      d.note == DeloadVolumeNote
      && (rec.progressionNote != "" ==> d.progressionNote == rec.progressionNote + DeloadRpeSuffix)
      && (rec.progressionNote == "" ==> d.progressionNote == DeloadRpeNote)
  {
    var reduced := Max(2, NormalizeSets(sets) - 1);
    NormalizeSetsOfCount(reduced);
    var s := NatToString(reduced);
    if rec.recommendedWeight.Some? then
      assert Progression.IsHalfMultiple(0.0);
      var v := Progression.Max0(Progression.RoundToHalf(rec.recommendedWeight.value * 0.9));
      DeloadedExercise(s, DeloadLoadNote, Some(v), rec.progressionNote)
    else
      var pn := if rec.progressionNote != "" then rec.progressionNote + DeloadRpeSuffix else DeloadRpeNote;
      DeloadedExercise(s, DeloadVolumeNote, None, pn)
  }

  /** "4" sets at 100 kg deload to "3" sets at 90 kg. */
  lemma DeloadExample()
    ensures ApplyDeload("4", Progression.Recommendation(Some(100.0), "6-8", ""))
      == DeloadedExercise("3", DeloadLoadNote, Some(90.0), "")
  {
    NormalizeSetsOfCount(4);
    assert NatToString(4) == "4";
    assert NatToString(3) == "3";
    assert Progression.RoundToHalf(90.0) == 90.0;
  }
}
