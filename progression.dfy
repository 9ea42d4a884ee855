/**
 * lib/progression/recommendWeight.ts: reducing one exercise's log stream to
 * its last performance, and turning that performance into the next target
 * load and rep range.
 */
module Progression {
  import opened Wrappers
  import opened Types
  import opened Text
  import Seqs
  import Sorting

  datatype LastPerformance = LastPerformance(
    lastWeight: Option<real>,
    lastReps: Option<int>,
    lastRpe: Option<real>,
    failedBelowTargetMinTwice: bool,
    targetMaxHitTwiceRecently: bool)

  /** The next target; `progressionNote` is "" when there is none. */
  datatype Recommendation = Recommendation(
    recommendedWeight: Option<real>,
    recommendedReps: string,
    progressionNote: string)

  // ---------------------------------------------------------------------
  // Rounding and levels

  predicate IsHalfMultiple(x: real) {
    (2.0 * x).Floor as real == 2.0 * x
  }

  /** `Math.round(value * 2) / 2`: the nearest multiple of 0.5, ties rounding up. */
  function RoundToHalf(v: real): (r: real)
    ensures IsHalfMultiple(r)
    ensures v - 0.25 < r <= v + 0.25
  {
    ((v * 2.0 + 0.5).Floor as real) / 2.0
  }

  /** The two facts of RoundToHalf's contract determine its result. */
  lemma RoundToHalfUnique(v: real, r: real)
    requires IsHalfMultiple(r) && v - 0.25 < r <= v + 0.25
    ensures r == RoundToHalf(v)
  {
    var a, b := (2.0 * r).Floor, (2.0 * RoundToHalf(v)).Floor;
    assert a as real == 2.0 * r;
    assert b as real == 2.0 * RoundToHalf(v);
    assert -1 < a - b < 1;
  }

  /** A multiple of 0.5 is left unchanged. */
  lemma RoundToHalfKeepsHalfMultiples(v: real)
    requires IsHalfMultiple(v)
    ensures RoundToHalf(v) == v
  {
    RoundToHalfUnique(v, v);
  }

  function Max0(x: real): real {
    if x > 0.0 then x else 0.0
  }

  /** `Math.floor(xp / 250) + 1`. */
  function XpToLevel(xp: int): (level: int)
    ensures (level - 1) * 250 <= xp < level * 250
    ensures xp >= 0 ==> level >= 1
  {
    xp / 250 + 1
  }

  lemma {:induction false} XpToLevelMonotone(xp1: int, xp2: int)
    requires xp1 <= xp2
    ensures XpToLevel(xp1) <= XpToLevel(xp2)
  {
    var l1, l2 := XpToLevel(xp1), XpToLevel(xp2);
    assert (l1 - 1) * 250 <= xp1 <= xp2 < l2 * 250;
  }

  // ---------------------------------------------------------------------
  // Last performance

  /** Sort key of the log stream: latest first, then more reps first. */
  function LogRank(e: LogEntry): (int, int) {
    (-e.createdAt, -e.reps)
  }

  /** The copy of `logs` sorted by time, latest first, ties by reps, highest first. */
  function SortLogs(logs: seq<LogEntry>): (sorted: seq<LogEntry>)
    ensures multiset(sorted) == multiset(logs)
    ensures forall i, j :: 0 <= i < j < |sorted| ==>
      sorted[i].createdAt > sorted[j].createdAt
      || (sorted[i].createdAt == sorted[j].createdAt && sorted[i].reps >= sorted[j].reps)
  {
    var r := Sorting.SortBy(logs, LogRank);
    assert forall i, j :: 0 <= i < j < |r| ==> !Sorting.LexLess(LogRank(r[j]), LogRank(r[i]));
    r
  }

  /** In the comparison, a missing weight counts as -Infinity. */
  predicate WeightBelow(a: Option<real>, b: Option<real>) {
    b.Some? && (a.None? || a.value < b.value)
  }

  /** `cur` replaces `best` in the reduction: heavier, or as heavy with more reps. */
  predicate Beats(cur: LogEntry, best: LogEntry) {
    WeightBelow(best.weightKg, cur.weightKg) || (cur.weightKg == best.weightKg && cur.reps > best.reps)
  }

  /** The `reduce` that picks a session's best set: no set of the session beats it. */
  function BestSet(sets: seq<LogEntry>): (b: LogEntry)
    requires |sets| > 0
    ensures b in sets
    ensures forall i :: 0 <= i < |sets| ==> !Beats(sets[i], b)
  {
    if |sets| == 1 then sets[0]
    else
      var init := sets[..|sets| - 1];
      var best := BestSet(init);
      var cur := sets[|sets| - 1];
      assert forall i :: 0 <= i < |sets| - 1 ==> sets[i] == init[i];
      if Beats(cur, best) then cur else best
  }

  function SessionSets(sorted: seq<LogEntry>, sid: string): seq<LogEntry> {
    Seqs.Filter(sorted, (e: LogEntry) => e.sessionId == sid)
  }

  function SessionIds(s: seq<LogEntry>): (ids: seq<string>)
    ensures |ids| == |s| && forall i :: 0 <= i < |s| ==> ids[i] == s[i].sessionId
  {
    seq(|s|, i requires 0 <= i < |s| => s[i].sessionId)
  }

  function RemoveAll(ids: seq<string>, x: string): seq<string> {
    Seqs.Filter(ids, (y: string) => y != x)
  }

  /** `Array.from(new Set(ids))`: the distinct ids in order of first occurrence. */
  function Distinct(ids: seq<string>): (r: seq<string>)
    ensures forall x :: x in r <==> x in ids
    ensures ids != [] ==> r != [] && r[0] == ids[0]
  {
    if ids == [] then []
    else
      var rest := Distinct(ids[1..]);
      assert forall x :: x in ids <==> x == ids[0] || x in ids[1..];
      [ids[0]] + RemoveAll(rest, ids[0])
  }

  /** The best set of the session `sid`, which has at least one set in `sorted`. */
  function SessionBest(sorted: seq<LogEntry>, sid: string): (b: LogEntry)
    requires sid in SessionIds(sorted)
    ensures b in sorted && b.sessionId == sid
    ensures forall e :: e in sorted && e.sessionId == sid ==> !Beats(e, b)
  {
    var sets := SessionSets(sorted, sid);
    var j :| 0 <= j < |sorted| && sorted[j].sessionId == sid;
    assert sorted[j] in sets;
    var b := BestSet(sets);
    assert forall e :: e in sorted && e.sessionId == sid ==> e in sets;
    b
  }

  /** `getLastPerformance(logs, targetMin, targetMax)`. */
  function GetLastPerformance(logs: seq<LogEntry>, targetMin: int, targetMax: int): (lp: LastPerformance)
    ensures logs == [] ==> lp == LastPerformance(None, None, None, false, false)
    ensures logs != [] ==> lp.lastReps.Some?
    ensures lp.failedBelowTargetMinTwice ==> lp.lastReps.Some? && lp.lastReps.value < targetMin
    ensures lp.targetMaxHitTwiceRecently ==> lp.lastReps.Some? && lp.lastReps.value >= targetMax
  {
    if logs == [] then
      LastPerformance(None, None, None, false, false)
    else
      var sorted := SortLogs(logs);
      var best := SessionBest(sorted, sorted[0].sessionId);
      var sessions := Seqs.Take(Distinct(SessionIds(sorted)), 2);
      assert forall i :: 0 <= i < |sessions| ==> sessions[i] in Distinct(SessionIds(sorted));
      var recentBest := seq(|sessions|, i requires 0 <= i < |sessions| => SessionBest(sorted, sessions[i]));
      var failed := |recentBest| >= 2 && recentBest[0].reps < targetMin && recentBest[1].reps < targetMin;
      var maxHit := |recentBest| >= 2 && recentBest[0].reps >= targetMax && recentBest[1].reps >= targetMax;
      LastPerformance(best.weightKg, Some(best.reps), best.rpe, failed, maxHit)
  }

  /** `e` is a latest entry of `logs`: none is later, and none as late has more reps. */
  ghost predicate IsLatest(logs: seq<LogEntry>, e: LogEntry) {
    e in logs
    && forall f :: f in logs ==> f.createdAt < e.createdAt || (f.createdAt == e.createdAt && f.reps <= e.reps)
  }

  /** `b` is a best set of session `sid`: a set of it that no set of it beats. */
  ghost predicate IsBestOfSession(logs: seq<LogEntry>, sid: string, b: LogEntry) {
    b in logs && b.sessionId == sid
    && forall f :: f in logs && f.sessionId == sid ==> !Beats(f, b)
  }

  /** The head of the sorted stream is a latest entry of the stream. */
  lemma SortedHeadIsLatest(logs: seq<LogEntry>)
    requires logs != []
    ensures |SortLogs(logs)| == |logs|
    ensures IsLatest(logs, SortLogs(logs)[0])
  {
    var sorted := SortLogs(logs);
    assert sorted[0] in multiset(logs);
    forall f | f in logs
      ensures f.createdAt < sorted[0].createdAt || (f.createdAt == sorted[0].createdAt && f.reps <= sorted[0].reps)
    {
      Sorting.SortByHeadIsLeast(logs, LogRank, f);
    }
  }

  /** The sorted copy holds the same entries as the stream. */
  lemma SortLogsSameEntries(logs: seq<LogEntry>)
    ensures forall e :: e in SortLogs(logs) <==> e in logs
  {
    var sorted := SortLogs(logs);
    forall e ensures e in sorted <==> e in logs {
      assert e in sorted <==> e in multiset(sorted);
      assert e in logs <==> e in multiset(logs);
    }
  }

  /** A best set of the sorted stream's session is a best set of that session in the stream. */
  lemma SessionBestIsBest(logs: seq<LogEntry>, sid: string)
    requires sid in SessionIds(SortLogs(logs))
    ensures IsBestOfSession(logs, sid, SessionBest(SortLogs(logs), sid))
  {
    SortLogsSameEntries(logs);
  }

  /**
   * lastWeight, lastReps and lastRpe are those of a best set of the session
   * of the latest entry.
   */
  lemma LastPerformanceIsBestOfLatestSession(logs: seq<LogEntry>, targetMin: int, targetMax: int)
    requires logs != []
    ensures IsLatest(logs, SortLogs(logs)[0])
    ensures exists b ::
      && IsBestOfSession(logs, SortLogs(logs)[0].sessionId, b)
      && GetLastPerformance(logs, targetMin, targetMax).lastWeight == b.weightKg
      && GetLastPerformance(logs, targetMin, targetMax).lastReps == Some(b.reps)
      && GetLastPerformance(logs, targetMin, targetMax).lastRpe == b.rpe
  {
    SortedHeadIsLatest(logs);
    var sorted := SortLogs(logs);
    assert sorted[0].sessionId == SessionIds(sorted)[0];
    SessionBestIsBest(logs, sorted[0].sessionId);
    var b := SessionBest(sorted, sorted[0].sessionId);
    assert IsBestOfSession(logs, sorted[0].sessionId, b);
  }

  /** All best sets of a session agree on weight and reps. */
  lemma BestSetsAgree(logs: seq<LogEntry>, sid: string, b1: LogEntry, b2: LogEntry)
    requires IsBestOfSession(logs, sid, b1) && IsBestOfSession(logs, sid, b2)
    ensures b1.weightKg == b2.weightKg && b1.reps == b2.reps
  {
    assert !Beats(b1, b2) && !Beats(b2, b1);
  }

  /** With every entry in one session, neither trend flag is raised. */
  lemma OneSessionRaisesNoFlag(logs: seq<LogEntry>, targetMin: int, targetMax: int)
    requires forall e :: e in logs ==> e.sessionId == logs[0].sessionId
    ensures !GetLastPerformance(logs, targetMin, targetMax).failedBelowTargetMinTwice
    ensures !GetLastPerformance(logs, targetMin, targetMax).targetMaxHitTwiceRecently
  {
    if logs != [] {
      var sorted := SortLogs(logs);
      SortLogsSameEntries(logs);
      var ids := SessionIds(sorted);
      var rest := Distinct(ids[1..]);
      forall i | 0 <= i < |rest|
        ensures !((y: string) => y != ids[0])(rest[i])
      {
        assert rest[i] in ids[1..];
        var k :| 1 <= k < |ids| && ids[k] == rest[i];
        assert sorted[k] in logs && sorted[0] in logs;
      }
      Seqs.FilterNone(rest, (y: string) => y != ids[0]);
      assert |Distinct(ids)| == 1;
    }
  }

  ghost predicate NoDuplicates(s: seq<string>) {
    forall i, j :: 0 <= i < j < |s| ==> s[i] != s[j]
  }

  lemma {:induction false} DistinctHasNoDuplicates(ids: seq<string>)
    ensures NoDuplicates(Distinct(ids))
  {
    if ids != [] {
      DistinctHasNoDuplicates(ids[1..]);
      var rest := RemoveAll(Distinct(ids[1..]), ids[0]);
      FilterKeepsNoDuplicates(Distinct(ids[1..]), ids[0]);
      assert forall k :: 0 <= k < |rest| ==> rest[k] != ids[0];
    }
  }

  lemma {:induction false} FilterKeepsNoDuplicates(s: seq<string>, x: string)
    requires NoDuplicates(s)
    ensures NoDuplicates(RemoveAll(s, x))
  {
    if s != [] {
      FilterKeepsNoDuplicates(s[1..], x);
      var tail := RemoveAll(s[1..], x);
      assert forall k :: 0 <= k < |tail| ==> tail[k] in s[1..];
      assert s[0] !in s[1..];
    }
  }

  /** Removing an id that heads a prefix of copies brings the first other id to the front. */
  lemma {:induction false} DistinctSecond(ids: seq<string>, k: nat)
    requires 0 < k < |ids| && ids[k] != ids[0]
    requires forall j :: 0 <= j < k ==> ids[j] == ids[0]
    ensures |Distinct(ids)| >= 2 && Distinct(ids)[1] == ids[k]
  {
    var tail := ids[1..];
    var rest := Distinct(tail);
    if k == 1 {
      assert rest[0] == ids[1];
    } else {
      DistinctSecond(tail, k - 1);
      assert rest[0] == ids[0] && rest[1] == ids[k];
      assert rest == [rest[0]] + rest[1..];
      assert rest[1..] == [rest[1]] + rest[2..];
    }
    var p := (y: string) => y != ids[0];
    assert rest == [rest[0]] + rest[1..];
    if k > 1 {
      assert RemoveAll(rest, ids[0]) == Seqs.Filter(rest[1..], p);
      assert rest[1..][1..] == rest[2..];
      assert Seqs.Filter(rest[1..], p)[0] == ids[k];
    } else {
      assert RemoveAll(rest, ids[0])[0] == ids[k];
    }
  }

  /**
   * When `sorted[k]` is the first entry of a session other than the latest's,
   * no entry of another session is later than it: its session is the second
   * most recent one.
   */
  lemma SecondSessionIsLatestOfOthers(logs: seq<LogEntry>, k: nat)
    requires 0 < k < |SortLogs(logs)|
    requires forall j :: 0 <= j < k ==> SortLogs(logs)[j].sessionId == SortLogs(logs)[0].sessionId
    ensures forall f :: f in logs && f.sessionId != SortLogs(logs)[0].sessionId ==>
      (f.createdAt < SortLogs(logs)[k].createdAt
       || (f.createdAt == SortLogs(logs)[k].createdAt && f.reps <= SortLogs(logs)[k].reps))
  {
    var sorted := SortLogs(logs);
    SortLogsSameEntries(logs);
    forall f | f in logs && f.sessionId != sorted[0].sessionId
      ensures f.createdAt < sorted[k].createdAt || (f.createdAt == sorted[k].createdAt && f.reps <= sorted[k].reps)
    {
      var m :| 0 <= m < |sorted| && sorted[m] == f;
      assert m >= k;
      if m > k {
        assert !Sorting.LexLess(LogRank(sorted[m]), LogRank(sorted[k]));
      }
    }
  }

  lemma FlagsOfTwoSessions(logs: seq<LogEntry>, targetMin: int, targetMax: int, k: nat)
    requires 0 < k < |SortLogs(logs)|
    requires SortLogs(logs)[k].sessionId != SortLogs(logs)[0].sessionId
    requires forall j :: 0 <= j < k ==> SortLogs(logs)[j].sessionId == SortLogs(logs)[0].sessionId
    ensures SortLogs(logs)[0].sessionId in SessionIds(SortLogs(logs))
    ensures SortLogs(logs)[k].sessionId in SessionIds(SortLogs(logs))
    ensures var lp := GetLastPerformance(logs, targetMin, targetMax);
      var r1 := SessionBest(SortLogs(logs), SortLogs(logs)[0].sessionId).reps;
      var r2 := SessionBest(SortLogs(logs), SortLogs(logs)[k].sessionId).reps;
      (lp.failedBelowTargetMinTwice <==> r1 < targetMin && r2 < targetMin)
      && (lp.targetMaxHitTwiceRecently <==> r1 >= targetMax && r2 >= targetMax)
  {
    var sorted := SortLogs(logs);
    var ids := SessionIds(sorted);
    assert ids[0] == sorted[0].sessionId && ids[k] == sorted[k].sessionId;
    DistinctSecond(ids, k);
    var d := Distinct(ids);
    assert Seqs.Take(d, 2) == [sorted[0].sessionId, sorted[k].sessionId];
  }

  /**
   * The trend flags compare the reps of the best sets of the two most recent
   * sessions, `sorted[k]` being the first entry of the second one.
   */
  lemma TwoLatestSessionsDriveFlags(logs: seq<LogEntry>, targetMin: int, targetMax: int, k: nat)
    requires 0 < k < |SortLogs(logs)|
    requires SortLogs(logs)[k].sessionId != SortLogs(logs)[0].sessionId
    requires forall j :: 0 <= j < k ==> SortLogs(logs)[j].sessionId == SortLogs(logs)[0].sessionId
    ensures forall b1, b2 ::
      IsBestOfSession(logs, SortLogs(logs)[0].sessionId, b1)
      && IsBestOfSession(logs, SortLogs(logs)[k].sessionId, b2) ==>
        ((GetLastPerformance(logs, targetMin, targetMax).failedBelowTargetMinTwice
          <==> (b1.reps < targetMin && b2.reps < targetMin))
         && (GetLastPerformance(logs, targetMin, targetMax).targetMaxHitTwiceRecently
          <==> (b1.reps >= targetMax && b2.reps >= targetMax)))
  {
    var sorted := SortLogs(logs);
    FlagsOfTwoSessions(logs, targetMin, targetMax, k);
    var s1, s2 := sorted[0].sessionId, sorted[k].sessionId;
    SessionBestIsBest(logs, s1);
    SessionBestIsBest(logs, s2);
    forall b1, b2 | IsBestOfSession(logs, s1, b1) && IsBestOfSession(logs, s2, b2)
      ensures b1.reps == SessionBest(sorted, s1).reps
      ensures b2.reps == SessionBest(sorted, s2).reps
    {
      BestSetsAgree(logs, s1, b1, SessionBest(sorted, s1));
      BestSetsAgree(logs, s2, b2, SessionBest(sorted, s2));
    }
  }

  // ---------------------------------------------------------------------
  // Recommendation

  /** `${min}-${max}`. */
  function RepsRange(min: int, max: int): string {
    IntToString(min) + "-" + IntToString(max)
  }

  const TopOfRangeNote: string := "Atteins le haut de plage: ajoute une variation plus difficile."

  /** Load step: 1 kg for dumbbells, 2.5 kg for everything else. */
  function GetIncrement(equipment: EquipmentType): (inc: real)
    ensures inc == 1.0 <==> equipment == Dumbbell
    ensures inc == 1.0 || inc == 2.5
  {
    if equipment == Dumbbell then 1.0
    else if equipment == Barbell || equipment == Machine then 2.5
    else 2.5
  }

  /** `recommendWeight({...})`. */
  function RecommendWeight(
    goal: Goal, targetMin: int, targetMax: int,
    lastWeight: Option<real>, lastReps: Option<int>, lastRpe: Option<real>,
    equipment: EquipmentType, failedBelowTargetMinTwice: bool, targetMaxHitTwiceRecently: bool): (r: Recommendation)
    ensures r.recommendedReps == RepsRange(targetMin, targetMax)
    ensures r.recommendedWeight.Some? <==> equipment != Bodyweight && lastWeight.Some? && lastReps.Some?
    ensures r.recommendedWeight.Some? ==> IsHalfMultiple(r.recommendedWeight.value)
    ensures r.progressionNote != "" <==> equipment == Bodyweight && lastReps.Some? && lastReps.value >= targetMax
  {
    var reps := RepsRange(targetMin, targetMax);
    if equipment == Bodyweight then
      if lastReps.Some? && lastReps.value >= targetMax then Recommendation(None, reps, TopOfRangeNote)
      else Recommendation(None, reps, "")
    else if lastWeight.None? || lastReps.None? then
      Recommendation(None, reps, "")
    else
      var w, n := lastWeight.value, lastReps.value;
      var inc := GetIncrement(equipment);
      var next :=
        match goal
        case Muscle =>
          if n >= targetMax && (lastRpe.None? || lastRpe.value <= 8.5) then RoundToHalf(w + inc)
          else if n < targetMin then Max0(RoundToHalf(w - 2.5))
          else RoundToHalf(w)
        case Strength =>
          if failedBelowTargetMinTwice then Max0(RoundToHalf(w * 0.95))
          else if n >= targetMax then RoundToHalf(w + inc)
          else RoundToHalf(w)
        case FatLoss | General =>
          if targetMaxHitTwiceRecently then RoundToHalf(w + inc)
          else RoundToHalf(w);
      assert IsHalfMultiple(0.0);
      Recommendation(Some(next), reps, "")
  }

  /**
   * `recommendWeight` fed with `getLastPerformance(logs, min, max)`, as both
   * session builders call them: without logs there is neither a load nor a note.
   */
  function RecommendFromLogs(
    goal: Goal, logs: seq<LogEntry>, targetMin: int, targetMax: int, equipment: EquipmentType): (r: Recommendation)
    ensures r.recommendedReps == RepsRange(targetMin, targetMax)
    ensures logs == [] ==> r == Recommendation(None, RepsRange(targetMin, targetMax), "")
    ensures logs != [] && equipment != Bodyweight ==>
      (r.recommendedWeight.Some? <==> GetLastPerformance(logs, targetMin, targetMax).lastWeight.Some?)
    ensures r.recommendedWeight.Some? ==> IsHalfMultiple(r.recommendedWeight.value)
  {
    var lp := GetLastPerformance(logs, targetMin, targetMax);
    RecommendWeight(goal, targetMin, targetMax, lp.lastWeight, lp.lastReps, lp.lastRpe, equipment,
      lp.failedBelowTargetMinTwice, lp.targetMaxHitTwiceRecently)
  }

  /** Progressing adds one increment; from a load on the 0.5 grid, exactly. */
  lemma ProgressAddsOneIncrement(w: real, inc: real)
    requires inc == 1.0 || inc == 2.5
    ensures w + inc - 0.25 < RoundToHalf(w + inc) <= w + inc + 0.25
    ensures IsHalfMultiple(w) ==> RoundToHalf(w + inc) == w + inc
  {
    if IsHalfMultiple(w) {
      assert (2.0 * (w + inc)).Floor == (2.0 * w).Floor + (2.0 * inc).Floor;
      RoundToHalfKeepsHalfMultiples(w + inc);
    }
  }

  /** Holding keeps the load, up to rounding onto the 0.5 grid. */
  lemma HoldKeepsLoad(w: real)
    ensures w - 0.25 < RoundToHalf(w) <= w + 0.25
    ensures IsHalfMultiple(w) ==> RoundToHalf(w) == w
  {
    if IsHalfMultiple(w) {
      RoundToHalfKeepsHalfMultiples(w);
    }
  }

  /** Muscle goal: top of range at an acceptable RPE adds an increment, below range removes 2.5 kg, otherwise hold. */
  lemma MuscleGoalRule(
    min: int, max: int, w: real, n: int, rpe: Option<real>,
    equipment: EquipmentType, failed: bool, maxHit: bool)
    requires equipment != Bodyweight
    ensures var r := RecommendWeight(Muscle, min, max, Some(w), Some(n), rpe, equipment, failed, maxHit);
      r.recommendedWeight.Some?
      && (n >= max && (rpe.None? || rpe.value <= 8.5) ==>
            r.recommendedWeight.value == RoundToHalf(w + GetIncrement(equipment))
            && r.recommendedWeight.value > w)
      && (!(n >= max && (rpe.None? || rpe.value <= 8.5)) && n < min ==>
            r.recommendedWeight.value == Max0(RoundToHalf(w - 2.5))
            && r.recommendedWeight.value >= 0.0
            && (w > 0.0 ==> r.recommendedWeight.value < w))
      && (!(n >= max && (rpe.None? || rpe.value <= 8.5)) && n >= min ==>
            r.recommendedWeight.value == RoundToHalf(w))
  {
    ProgressAddsOneIncrement(w, GetIncrement(equipment));
  }

  /** Strength goal: two failed sessions cut to 95 % and take precedence over the top-of-range increment. */
  lemma StrengthGoalRule(
    min: int, max: int, w: real, n: int, rpe: Option<real>,
    equipment: EquipmentType, failed: bool, maxHit: bool)
    requires equipment != Bodyweight
    ensures var r := RecommendWeight(Strength, min, max, Some(w), Some(n), rpe, equipment, failed, maxHit);
      r.recommendedWeight.Some?
      && (failed ==> r.recommendedWeight.value == Max0(RoundToHalf(w * 0.95))
                     && 0.0 <= r.recommendedWeight.value <= Max0(w * 0.95 + 0.25))
      && (!failed && n >= max ==> r.recommendedWeight.value == RoundToHalf(w + GetIncrement(equipment))
                                  && r.recommendedWeight.value > w)
      && (!failed && n < max ==> r.recommendedWeight.value == RoundToHalf(w))
  {
    ProgressAddsOneIncrement(w, GetIncrement(equipment));
  }

  /** Fat-loss and general goals progress only on a confirmed trend. */
  lemma TrendGoalRule(
    goal: Goal, min: int, max: int, w: real, n: int, rpe: Option<real>,
    equipment: EquipmentType, failed: bool, maxHit: bool)
    requires goal == FatLoss || goal == General
    requires equipment != Bodyweight
    ensures var r := RecommendWeight(goal, min, max, Some(w), Some(n), rpe, equipment, failed, maxHit);
      r.recommendedWeight.Some?
      && (maxHit ==> r.recommendedWeight.value == RoundToHalf(w + GetIncrement(equipment))
                     && r.recommendedWeight.value > w)
      && (!maxHit ==> r.recommendedWeight.value == RoundToHalf(w))
  {
    ProgressAddsOneIncrement(w, GetIncrement(equipment));
  }

  /** 100 kg for 12 reps against a range of 8-10 on a barbell, goal muscle: 102.5 kg, reps "8-10". */
  lemma MuscleExample()
    ensures RecommendWeight(Muscle, 8, 10, Some(100.0), Some(12), None, Barbell, false, false)
      == Recommendation(Some(102.5), "8-10", "")
  {
    assert RoundToHalf(102.5) == 102.5;
    assert NatToString(8) == "8";
    assert NatToString(10) == NatToString(1) + [DigitChar(0)];
  }
}
