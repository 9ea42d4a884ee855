/**
 * lib/coach/plateau.ts: deciding from the three latest counted logs of an
 * exercise whether it has stalled.
 */
module Plateau {
  import opened Wrappers
  import opened Types
  import Seqs
  import Sorting

  datatype PlateauVerdict = PlateauVerdict(isPlateau: bool, reason: string)

  const NotEnoughReason: string := "Not enough sessions."
  const PlateauReason: string := "3 sessions sans progression mesurable (charge/répétitions)."
  const ProgressingReason: string := "Progression still detected."

  /** A log counts when the exercise key is empty or the log carries a session id. */
  function Counts(exerciseKey: string): LogEntry -> bool {
    (e: LogEntry) => exerciseKey == "" || e.sessionId != ""
  }

  /** The counted logs, in their original order. */
  function Kept(exerciseKey: string, logs: seq<LogEntry>): seq<LogEntry> {
    Seqs.Filter(logs, Counts(exerciseKey))
  }

  /** Sort key: latest first. */
  function TimeRank(e: LogEntry): (int, int) {
    (-e.createdAt, 0)
  }

  /** The first twelve counted logs, latest first. */
  function Relevant(exerciseKey: string, logs: seq<LogEntry>): (r: seq<LogEntry>)
    ensures |r| == if |Kept(exerciseKey, logs)| <= 12 then |Kept(exerciseKey, logs)| else 12
    ensures Sorting.SortedBy(r, TimeRank)
    ensures multiset(r) == multiset(Seqs.Take(Kept(exerciseKey, logs), 12))
  {
    Sorting.SortBy(Seqs.Take(Kept(exerciseKey, logs), 12), TimeRank)
  }

  /** `weight_kg ?? 0`. */
  function LoadOf(e: LogEntry): real {
    e.weightKg.GetOr(0.0)
  }

  /** The two stall rules over the window latest, previous, older. */
  predicate Stalled(latest: LogEntry, prev: LogEntry, older: LogEntry, min: int, max: int)
    ensures Stalled(latest, prev, older, min, max) ==> LoadOf(latest) <= LoadOf(prev) <= LoadOf(older)
  {
    var w0, w1, w2 := LoadOf(latest), LoadOf(prev), LoadOf(older);
    var r0, r1, r2 := latest.reps, prev.reps, older.reps;
    var inRange := min <= r0 <= max && min <= r1 <= max && min <= r2 <= max;
    var noRepGainAtSameLoad := w0 == w1 && w1 == w2 && r0 <= r1 && r1 <= r2;
    var noLoadIncreaseWhileInRange := inRange && w0 <= w1 && w1 <= w2;
    noRepGainAtSameLoad || noLoadIncreaseWhileInRange
  }

  /** `detectPlateau(exercise_key, logs, { min, max })`. */
  function DetectPlateau(exerciseKey: string, logs: seq<LogEntry>, min: int, max: int): (v: PlateauVerdict)
    ensures v.reason == NotEnoughReason <==> |Kept(exerciseKey, logs)| < 3
    ensures v.isPlateau <==> v.reason == PlateauReason
    ensures v.reason == NotEnoughReason || v.reason == PlateauReason || v.reason == ProgressingReason
  {
    var window := Seqs.Take(Relevant(exerciseKey, logs), 3);
    if |window| < 3 then
      PlateauVerdict(false, NotEnoughReason)
    else if Stalled(window[0], window[1], window[2], min, max) then
      PlateauVerdict(true, PlateauReason)
    else
      PlateauVerdict(false, ProgressingReason)
  }

  /**
   * The window is the three latest of the first twelve counted logs: it is in
   * time order, latest first, and no other of those twelve is later than its
   * oldest entry.
   */
  lemma WindowIsLatest(exerciseKey: string, logs: seq<LogEntry>)
    requires |Kept(exerciseKey, logs)| >= 3
    ensures var r := Relevant(exerciseKey, logs);
      |r| >= 3
      && r[0].createdAt >= r[1].createdAt >= r[2].createdAt
      && forall e :: e in Seqs.Take(Kept(exerciseKey, logs), 12) ==>
           e in r[..3] || e.createdAt <= r[2].createdAt
  {
    var r := Relevant(exerciseKey, logs);
    var first := Seqs.Take(Kept(exerciseKey, logs), 12);
    assert !Sorting.LexLess(TimeRank(r[1]), TimeRank(r[0]));
    assert !Sorting.LexLess(TimeRank(r[2]), TimeRank(r[1]));
    forall e | e in first
      ensures e in r[..3] || e.createdAt <= r[2].createdAt
    {
      assert e in multiset(r);
      var k :| 0 <= k < |r| && r[k] == e;
      if k >= 3 {
        assert !Sorting.LexLess(TimeRank(r[k]), TimeRank(r[2]));
      }
    }
  }

  /** Logs after the first twelve counted ones cannot change the verdict. */
  lemma LaterLogsIgnored(exerciseKey: string, logs: seq<LogEntry>, more: seq<LogEntry>, min: int, max: int)
    requires |Kept(exerciseKey, logs)| >= 12
    ensures DetectPlateau(exerciseKey, logs + more, min, max) == DetectPlateau(exerciseKey, logs, min, max)
  {
    Seqs.FilterAppend(logs, more, Counts(exerciseKey));
    var k := Kept(exerciseKey, logs);
    var all := Kept(exerciseKey, logs + more);
    assert all == k + Kept(exerciseKey, more);
    assert all[..12] == k[..12];
    assert Seqs.Take(all, 12) == Seqs.Take(k, 12);
    assert Relevant(exerciseKey, logs + more) == Relevant(exerciseKey, logs);
  }

  /** A heavier latest session than the previous one is progress. */
  lemma HeavierLatestIsProgress(exerciseKey: string, logs: seq<LogEntry>, min: int, max: int)
    requires |Kept(exerciseKey, logs)| >= 3
    requires var r := Relevant(exerciseKey, logs); LoadOf(r[0]) > LoadOf(r[1])
    ensures DetectPlateau(exerciseKey, logs, min, max) == PlateauVerdict(false, ProgressingReason)
  {
  }

  /** Three sessions at one load without a rep gain are a plateau, whatever the range. */
  lemma SameLoadNoRepGainIsPlateau(exerciseKey: string, logs: seq<LogEntry>, min: int, max: int)
    requires |Kept(exerciseKey, logs)| >= 3
    requires var r := Relevant(exerciseKey, logs);
      LoadOf(r[0]) == LoadOf(r[1]) == LoadOf(r[2]) && r[0].reps <= r[1].reps <= r[2].reps
    ensures DetectPlateau(exerciseKey, logs, min, max).isPlateau
  {
  }

  /** Three sessions inside the target range without a load increase are a plateau, whatever the reps. */
  lemma InRangeNoLoadGainIsPlateau(exerciseKey: string, logs: seq<LogEntry>, min: int, max: int)
    requires |Kept(exerciseKey, logs)| >= 3
    requires var r := Relevant(exerciseKey, logs);
      (forall j :: 0 <= j < 3 ==> min <= r[j].reps <= max)
      && LoadOf(r[0]) <= LoadOf(r[1]) <= LoadOf(r[2])
    ensures DetectPlateau(exerciseKey, logs, min, max).isPlateau
  {
    var r := Relevant(exerciseKey, logs);
    assert min <= r[0].reps <= max && min <= r[1].reps <= max && min <= r[2].reps <= max;
  }

  /**
   * With three counted logs the verdict is a plateau exactly when one of the
   * two rules holds of the window, and "progression still detected" otherwise.
   */
  lemma PlateauExactlyByRules(exerciseKey: string, logs: seq<LogEntry>, min: int, max: int)
    requires |Kept(exerciseKey, logs)| >= 3
    ensures var r := Relevant(exerciseKey, logs);
      var w0, w1, w2 := LoadOf(r[0]), LoadOf(r[1]), LoadOf(r[2]);
      var v := DetectPlateau(exerciseKey, logs, min, max);
      (v.isPlateau <==>
        (w0 == w1 == w2 && r[0].reps <= r[1].reps <= r[2].reps)
        || ((forall j :: 0 <= j < 3 ==> min <= r[j].reps <= max) && w0 <= w1 <= w2))
      && (!v.isPlateau ==> v.reason == ProgressingReason)
  {
    var r := Relevant(exerciseKey, logs);
    var inRange := min <= r[0].reps <= max && min <= r[1].reps <= max && min <= r[2].reps <= max;
    assert inRange <==> forall j :: 0 <= j < 3 ==> min <= r[j].reps <= max;
    assert Seqs.Take(r, 3) == r[..3];
  }

  /** At least three counted logs that all repeat one load and one rep count are a plateau. */
  lemma RepeatedSessionsArePlateau(exerciseKey: string, logs: seq<LogEntry>, load: real, reps: int, min: int, max: int)
    requires |Kept(exerciseKey, logs)| >= 3
    requires forall i :: 0 <= i < |logs| ==> LoadOf(logs[i]) == load && logs[i].reps == reps
    ensures DetectPlateau(exerciseKey, logs, min, max).isPlateau
  {
    var r := Relevant(exerciseKey, logs);
    var k := Kept(exerciseKey, logs);
    var first := Seqs.Take(k, 12);
    forall j | 0 <= j < 3
      ensures LoadOf(r[j]) == load && r[j].reps == reps
    {
      assert r[j] in multiset(first);
      assert r[j] in first;
      assert r[j] in k;
      assert r[j] in logs;
    }
  }

  /** Three sessions of 60 kg x 8 on consecutive days, range 6-10: a plateau. */
  lemma StagnantSessionsExample()
    ensures DetectPlateau("barbell_bench_press",
      [LogEntry(Some(60.0), 8, Some(8.0), 3, "1"),
       LogEntry(Some(60.0), 8, Some(8.0), 2, "2"),
       LogEntry(Some(60.0), 8, Some(8.0), 1, "3")], 6, 10).isPlateau
  {
    var a, b, c := LogEntry(Some(60.0), 8, Some(8.0), 3, "1"), LogEntry(Some(60.0), 8, Some(8.0), 2, "2"), LogEntry(Some(60.0), 8, Some(8.0), 1, "3");
    var logs := [a, b, c];
    var key := "barbell_bench_press";
    var p := Counts(key);
    assert p(a) && p(b) && p(c);
    assert logs[1..] == [b, c] && [b, c][1..] == [c] && [c][1..] == [];
    assert Seqs.Filter([c], p) == [c];
    assert Seqs.Filter([b, c], p) == [b, c];
    assert Kept(key, logs) == logs;
    RepeatedSessionsArePlateau(key, logs, 60.0, 8, 6, 10);
  }
}
