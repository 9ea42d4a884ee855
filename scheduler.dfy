/**
 * lib/schedule/scheduler.ts: keeping the current week's workout calendar
 * filled. The `scheduled_workouts` table is a store object holding its rows;
 * `ensureWeekSchedule` reads the user's rows of the week, upserts the missing
 * planned days, and reads the week again.
 *
 * Dates are day numbers (see module Cycle); the table keys a row by user and
 * date, which the date's text form identifies as well, `FormatDate` being
 * injective.
 */
module Scheduler {
  import opened Wrappers
  import opened Text
  import Seqs
  import Sorting
  import Cycle
  import Running

  // ---------------------------------------------------------------------
  // Date text

  /** `${n}`.padStart(2, '0'). */
  function Pad2(n: nat): (s: string)
    ensures |s| >= 2 && AllDigits(s) && DigitsValue(s) == n
    ensures n < 100 ==> |s| == 2
  {
    var t := NatToString(n);
    if |t| < 2 then
      var s := ['0'] + t;
      assert s[..|s| - 1] == ['0'];
      s
    else
      assert 10 <= n < 100 ==> NatToString(n) == NatToString(n / 10) + [DigitChar(n % 10)];
      t
  }

  /**
   * `formatDate(date)`: `YYYY-MM-DD` in the local calendar. The numbers of the
   * text are the year, month and day, so the text identifies the date.
   */
  function FormatDate(year: nat, month: nat, day: nat): (text: string)
    ensures Numbers(text) == [year, month, day]
    ensures text == NatToString(year) + "-" + Pad2(month) + "-" + Pad2(day)
    ensures month < 100 && day < 100 ==>
      && |text| == |NatToString(year)| + 6
      && text[..|text| - 6] == NatToString(year)
      && text[|text| - 6] == '-' && text[|text| - 3] == '-'
      && AllDigits(text[|text| - 5..|text| - 3]) && AllDigits(text[|text| - 2..])
  {
    NumbersOfDashed(NatToString(year), Pad2(month), Pad2(day));
    NatToString(year) + "-" + Pad2(month) + "-" + Pad2(day)
  }

  /** `-{m}-{d}` for digit runs `m` and `d` holds their two values. */
  lemma {:induction false} NumbersOfDashedPair(m: string, d: string)
    requires |m| > 0 && AllDigits(m) && |d| > 0 && AllDigits(d)
    ensures Numbers(['-'] + (m + (['-'] + d))) == [DigitsValue(m), DigitsValue(d)]
  {
    NumbersOfDigitsThen(d, []);
    assert d + [] == d;
    NumbersSkip('-', d);
    NumbersOfDigitsThen(m, ['-'] + d);
    NumbersSkip('-', m + (['-'] + d));
  }

  /** Three digit runs separated by dashes read back as their three values. */
  lemma {:induction false} NumbersOfDashed(y: string, m: string, d: string)
    requires |y| > 0 && AllDigits(y) && |m| > 0 && AllDigits(m) && |d| > 0 && AllDigits(d)
    ensures Numbers(y + "-" + m + "-" + d) == [DigitsValue(y), DigitsValue(m), DigitsValue(d)]
  {
    var t := ['-'] + (m + (['-'] + d));
    NumbersOfDashedPair(m, d);
    NumbersOfDigitsThen(y, t);
    DashedShape(y, m, d);
  }

  lemma DashedShape(y: string, m: string, d: string)
    ensures y + "-" + m + "-" + d == y + (['-'] + (m + (['-'] + d)))
  {
  }

  lemma FormatDateInjective(y1: nat, m1: nat, d1: nat, y2: nat, m2: nat, d2: nat)
    requires FormatDate(y1, m1, d1) == FormatDate(y2, m2, d2)
    ensures y1 == y2 && m1 == m2 && d1 == d2
  {
    assert Numbers(FormatDate(y1, m1, d1)) == [y1, m1, d1];
  }

  // ---------------------------------------------------------------------
  // Weekly slots

  /** Slot `index` of `count` spread over Monday (0) to Sunday (6): `Math.round(index * 6 / (count - 1))`. */
  function Slot(index: int, count: int): (offset: int)
    requires count >= 2
    ensures offset as real <= (index * 6) as real / (count - 1) as real + 0.5 < offset as real + 1.0
    ensures 0 <= index < count ==> 0 <= offset <= 6
    ensures index == 0 ==> offset == 0
    ensures index == count - 1 ==> offset == 6
  {
    SlotRounding(index, count);
    Running.JsRound((index * 6) as real / (count - 1) as real)
  }

  lemma SlotRounding(index: int, count: int)
    requires count >= 2
    ensures var offset := Running.JsRound((index * 6) as real / (count - 1) as real);
      (0 <= index < count ==> 0 <= offset <= 6)
      && (index == 0 ==> offset == 0)
      && (index == count - 1 ==> offset == 6)
  {
    var x := (index * 6) as real / (count - 1) as real;
    if 0 <= index < count {
      SlotFraction(index, count);
      Running.JsRoundMonotone(0.0, x);
      Running.JsRoundMonotone(x, 6.0);
      Running.JsRoundOfInt(0);
      Running.JsRoundOfInt(6);
    }
  }

  lemma SlotFraction(i: int, n: int)
    requires 0 <= i < n && n >= 2
    ensures 0.0 <= (i * 6) as real / (n - 1) as real <= 6.0
    ensures i == 0 ==> (i * 6) as real / (n - 1) as real == 0.0
    ensures i == n - 1 ==> (i * 6) as real / (n - 1) as real == 6.0
  {
    var x := (i * 6) as real / (n - 1) as real;
    assert x * (n - 1) as real == (i * 6) as real;
    assert i * 6 <= (n - 1) * 6;
  }

  /** `fallbackOffsets(daysPerWeek)`: the days spread evenly over a seven-day week. */
  function FallbackOffsets(daysPerWeek: int): (offsets: seq<int>)
    ensures daysPerWeek <= 1 ==> offsets == [0]
    ensures daysPerWeek >= 2 ==> |offsets| == daysPerWeek && offsets[0] == 0 && offsets[daysPerWeek - 1] == 6
    ensures daysPerWeek >= 2 ==> forall i :: 0 <= i < daysPerWeek ==> offsets[i] == Slot(i, daysPerWeek)
    ensures forall k :: 0 <= k < |offsets| ==> 0 <= offsets[k] <= 6
  {
    if daysPerWeek <= 1 then [0]
    else seq(daysPerWeek, i requires 0 <= i < daysPerWeek => Slot(i, daysPerWeek))
  }

  /** Rounding keeps a gap of at least one between two values. */
  lemma RoundKeepsUnitGap(x: real, y: real)
    requires x + 1.0 <= y
    ensures Running.JsRound(x) < Running.JsRound(y)
  {
  }

  /** A later index never gets an earlier slot. */
  lemma SlotMonotone(i: int, j: int, count: int)
    requires count >= 2 && i <= j
    ensures Slot(i, count) <= Slot(j, count)
  {
    var d := (count - 1) as real;
    assert (i * 6) as real / d <= (j * 6) as real / d by {
      assert (i * 6) as real <= (j * 6) as real;
    }
    Running.JsRoundMonotone((i * 6) as real / d, (j * 6) as real / d);
  }

  /**
   * The even spread is non-decreasing, and with at most seven days (slots at
   * least one day apart) it is strictly increasing: no two days share a date.
   */
  lemma FallbackSpread(daysPerWeek: int)
    requires daysPerWeek >= 2
    ensures forall i, j :: 0 <= i <= j < daysPerWeek ==>
      FallbackOffsets(daysPerWeek)[i] <= FallbackOffsets(daysPerWeek)[j]
    ensures daysPerWeek <= 7 ==> StrictlyIncreasing(FallbackOffsets(daysPerWeek))
  {
    var offsets := FallbackOffsets(daysPerWeek);
    forall i, j | 0 <= i <= j < daysPerWeek
      ensures offsets[i] <= offsets[j]
    {
      SlotMonotone(i, j, daysPerWeek);
    }
    if daysPerWeek <= 7 {
      forall i, j | 0 <= i < j < daysPerWeek
        ensures offsets[i] < offsets[j]
      {
        SlotStep(i, daysPerWeek);
        SlotMonotone(i + 1, j, daysPerWeek);
      }
    }
  }

  /** With at most seven days, consecutive slots are at least one day apart. */
  lemma SlotStep(i: int, count: int)
    requires 2 <= count <= 7 && 0 <= i < count - 1
    ensures Slot(i, count) < Slot(i + 1, count)
  {
    var d := (count - 1) as real;
    var x, y := (i * 6) as real / d, ((i + 1) * 6) as real / d;
    assert y == x + 6.0 / d;
    assert 6.0 / d >= 1.0 by {
      assert d <= 6.0;
    }
    RoundKeepsUnitGap(x, y);
  }

  /** `scheduleOffsetsMap`: the preferred slots for two to six days a week. */
  function OffsetsTable(daysPerWeek: int): (table: Option<seq<int>>)
    ensures table.Some? <==> 2 <= daysPerWeek <= 6
    ensures table.Some? ==>
      && |table.value| == daysPerWeek && StrictlyIncreasing(table.value) && table.value[0] == 0
      && forall k :: 0 <= k < daysPerWeek ==> 0 <= table.value[k] <= 5
  {
    if daysPerWeek == 2 then Some([0, 3])
    else if daysPerWeek == 3 then Some([0, 2, 4])
    else if daysPerWeek == 4 then Some([0, 1, 3, 4])
    else if daysPerWeek == 5 then Some([0, 1, 2, 3, 4])
    else if daysPerWeek == 6 then Some([0, 1, 2, 3, 4, 5])
    else None
  }

  predicate StrictlyIncreasing(s: seq<int>) {
    forall i, j :: 0 <= i < j < |s| ==> s[i] < s[j]
  }

  /** `getOffsetsForWeek(daysPerWeek)`. */
  function GetOffsetsForWeek(daysPerWeek: int): (offsets: seq<int>)
    ensures 2 <= daysPerWeek <= 6 ==> |offsets| == daysPerWeek && StrictlyIncreasing(offsets)
    ensures forall k :: 0 <= k < |offsets| ==> 0 <= offsets[k] <= 6
    ensures |offsets| >= 1
  {
    match OffsetsTable(daysPerWeek)
    case Some(table) => table
    case None => FallbackOffsets(daysPerWeek)
  }

  /** `Math.max(3, Math.min(6, days_per_week ?? days.length))`. */
  function TargetDays(daysPerWeek: Option<int>, planDayCount: int): (target: int)
    ensures 3 <= target <= 6
    ensures daysPerWeek.Some? && 3 <= daysPerWeek.value <= 6 ==> target == daysPerWeek.value
    ensures daysPerWeek.None? && 3 <= planDayCount <= 6 ==> target == planDayCount
  {
    var wanted := daysPerWeek.GetOr(planDayCount);
    if wanted > 6 then 6 else if wanted < 3 then 3 else wanted
  }

  /** The clamped target always has a table entry: the even spread is never reached from `ensureWeekSchedule`. */
  lemma TargetHasTableEntry(daysPerWeek: Option<int>, planDayCount: int)
    ensures OffsetsTable(TargetDays(daysPerWeek, planDayCount)).Some?
  {
  }

  // ---------------------------------------------------------------------
  // Rows

  datatype Status = Planned | Done | Skipped

  datatype ScheduledRow = ScheduledRow(
    id: nat, userId: string, planId: Option<string>, workoutDate: int,
    dayIndex: int, status: Status, sessionId: Option<string>)

  /** A row as `ensureWeekSchedule` sends it to the upsert. */
  datatype NewRow = NewRow(userId: string, planId: Option<string>, workoutDate: int, dayIndex: int)

  predicate SameKey(row: ScheduledRow, userId: string, date: int) {
    row.userId == userId && row.workoutDate == date
  }

  predicate HasRowOn(rows: seq<ScheduledRow>, userId: string, date: int) {
    exists j :: 0 <= j < |rows| && SameKey(rows[j], userId, date)
  }

  /** At most one row per user and date: the table's unique key. */
  ghost predicate KeysUnique(rows: seq<ScheduledRow>) {
    forall i, j :: 0 <= i < j < |rows| ==> !SameKey(rows[j], rows[i].userId, rows[i].workoutDate)
  }

  ghost predicate IdsFresh(rows: seq<ScheduledRow>, nextId: nat) {
    (forall i :: 0 <= i < |rows| ==> rows[i].id < nextId)
    && forall i, j :: 0 <= i < j < |rows| ==> rows[i].id != rows[j].id
  }

  /** The table's unique key holds and every id is below the counter. */
  ghost predicate TableOk(rows: seq<ScheduledRow>, nextId: nat) {
    KeysUnique(rows) && IdsFresh(rows, nextId)
  }

  /** Position of the row with this key, or -1. */
  function KeyIndex(rows: seq<ScheduledRow>, userId: string, date: int): (j: int)
    ensures -1 <= j < |rows|
    ensures j >= 0 ==> SameKey(rows[j], userId, date)
    ensures j == -1 <==> !HasRowOn(rows, userId, date)
  {
    if rows == [] then -1
    else if SameKey(rows[|rows| - 1], userId, date) then |rows| - 1
    else
      var k := KeyIndex(rows[..|rows| - 1], userId, date);
      assert forall j :: 0 <= j < |rows| - 1 ==> rows[..|rows| - 1][j] == rows[j];
      k
  }

  function FreshRow(r: NewRow, id: nat): ScheduledRow {
    ScheduledRow(id, r.userId, r.planId, r.workoutDate, r.dayIndex, Planned, None)
  }

  /** Upsert of one row on conflict (user_id, workout_date): update plan and day index, or insert it as planned. */
  function UpsertOne(rows: seq<ScheduledRow>, r: NewRow, id: nat): (result: seq<ScheduledRow>)
    ensures HasRowOn(result, r.userId, r.workoutDate)
  {
    var j := KeyIndex(rows, r.userId, r.workoutDate);
    if j >= 0 then
      var result := rows[j := rows[j].(planId := r.planId, dayIndex := r.dayIndex)];
      assert SameKey(result[j], r.userId, r.workoutDate);
      result
    else
      var result := rows + [FreshRow(r, id)];
      assert SameKey(result[|rows|], r.userId, r.workoutDate);
      result
  }

  /** One upsert keeps the unique key. */
  lemma UpsertOneKeysUnique(rows: seq<ScheduledRow>, r: NewRow, id: nat)
    requires KeysUnique(rows)
    ensures KeysUnique(UpsertOne(rows, r, id))
  {
  }

  /** One upsert keeps the ids distinct and below the counter, `before` it and `after` it. */
  lemma UpsertOneIdsFresh(rows: seq<ScheduledRow>, r: NewRow, id: nat, before: nat, after: nat)
    requires before == id && after == id + 1
    requires IdsFresh(rows, before)
    ensures IdsFresh(UpsertOne(rows, r, id), after)
  {
  }

  /** One upsert leaves the rows of every other key as they were. */
  lemma UpsertOneLeavesOthers(rows: seq<ScheduledRow>, r: NewRow, id: nat)
    ensures |rows| <= |UpsertOne(rows, r, id)|
    ensures forall j :: 0 <= j < |rows| && !SameKey(rows[j], r.userId, r.workoutDate) ==>
      UpsertOne(rows, r, id)[j] == rows[j]
  {
  }

  /** One upsert drops no user's date. */
  lemma UpsertOneKeepsKeys(rows: seq<ScheduledRow>, r: NewRow, id: nat)
    ensures KeepsKeys(rows, UpsertOne(rows, r, id))
  {
    var result := UpsertOne(rows, r, id);
    UpsertOneLeavesOthers(rows, r, id);
    forall u, d | HasRowOn(rows, u, d) ensures HasRowOn(result, u, d) {
      var j :| 0 <= j < |rows| && SameKey(rows[j], u, d);
      assert SameKey(result[j], u, d);
    }
  }

  /** Every user and date that has a row in `before` still has one in `after`. */
  ghost predicate KeepsKeys(before: seq<ScheduledRow>, after: seq<ScheduledRow>) {
    forall u, d :: HasRowOn(before, u, d) ==> HasRowOn(after, u, d)
  }

  lemma KeepsKeysTrans(a: seq<ScheduledRow>, b: seq<ScheduledRow>, c: seq<ScheduledRow>)
    requires KeepsKeys(a, b) && KeepsKeys(b, c)
    ensures KeepsKeys(a, c)
  {
  }

  /** The rows after upserting a batch, one row after the other, ids taken from `firstId` on. */
  function Upserted(rows: seq<ScheduledRow>, batch: seq<NewRow>, firstId: nat): seq<ScheduledRow> {
    if batch == [] then rows
    else UpsertOne(Upserted(rows, batch[..|batch| - 1], firstId), batch[|batch| - 1], firstId + |batch| - 1)
  }

  /** A batch upsert keeps the unique key and the fresh ids. */
  lemma UpsertedValid(rows: seq<ScheduledRow>, batch: seq<NewRow>, firstId: nat)
    requires TableOk(rows, firstId)
    ensures TableOk(Upserted(rows, batch, firstId), firstId + |batch|)
  {
    UpsertedKeysUnique(rows, batch, firstId);
    UpsertedIdsFresh(rows, batch, firstId);
  }

  lemma {:induction false} UpsertedKeysUnique(rows: seq<ScheduledRow>, batch: seq<NewRow>, firstId: nat)
    requires KeysUnique(rows)
    ensures KeysUnique(Upserted(rows, batch, firstId))
  {
    if batch != [] {
      var n := |batch| - 1;
      UpsertedKeysUnique(rows, batch[..n], firstId);
      UpsertOneKeysUnique(Upserted(rows, batch[..n], firstId), batch[n], firstId + n);
    }
  }

  /** The definition of a non-empty batch upsert, unfolded once. */
  lemma UpsertedLast(rows: seq<ScheduledRow>, batch: seq<NewRow>, firstId: nat)
    requires batch != []
    ensures Upserted(rows, batch, firstId)
      == UpsertOne(Upserted(rows, batch[..|batch| - 1], firstId), batch[|batch| - 1], firstId + |batch| - 1)
  {
  }

  lemma {:induction false} UpsertedIdsFresh(rows: seq<ScheduledRow>, batch: seq<NewRow>, firstId: nat)
    requires IdsFresh(rows, firstId)
    ensures IdsFresh(Upserted(rows, batch, firstId), firstId + |batch|)
  {
    if batch != [] {
      var n := |batch| - 1;
      var mid := Upserted(rows, batch[..n], firstId);
      UpsertedIdsFresh(rows, batch[..n], firstId);
      UpsertOneIdsFresh(mid, batch[n], firstId + n, firstId + |batch[..n]|, firstId + |batch|);
      UpsertedLast(rows, batch, firstId);
    }
  }

  /** A batch upsert drops no user's date. */
  lemma {:induction false} UpsertedKeepsKeys(rows: seq<ScheduledRow>, batch: seq<NewRow>, firstId: nat)
    ensures KeepsKeys(rows, Upserted(rows, batch, firstId))
  {
    if batch != [] {
      var n := |batch| - 1;
      var mid := Upserted(rows, batch[..n], firstId);
      UpsertedKeepsKeys(rows, batch[..n], firstId);
      UpsertOneKeepsKeys(mid, batch[n], firstId + n);
      KeepsKeysTrans(rows, mid, UpsertOne(mid, batch[n], firstId + n));
    }
  }

  function Inserted(batch: seq<NewRow>, firstId: nat): (rows: seq<ScheduledRow>)
    ensures |rows| == |batch|
    ensures forall i :: 0 <= i < |batch| ==> rows[i] == FreshRow(batch[i], firstId + i)
  {
    seq(|batch|, i requires 0 <= i < |batch| => FreshRow(batch[i], firstId + i))
  }

  predicate KeyFree(rows: seq<ScheduledRow>, r: NewRow) {
    !HasRowOn(rows, r.userId, r.workoutDate)
  }

  predicate BatchKeysDistinct(batch: seq<NewRow>) {
    forall i, j :: 0 <= i < j < |batch| ==> !(batch[i].userId == batch[j].userId && batch[i].workoutDate == batch[j].workoutDate)
  }

  /** A batch of new keys is appended as fresh planned rows, in batch order. */
  lemma {:induction false} UpsertedAppends(rows: seq<ScheduledRow>, batch: seq<NewRow>, firstId: nat)
    requires forall i :: 0 <= i < |batch| ==> KeyFree(rows, batch[i])
    requires BatchKeysDistinct(batch)
    ensures Upserted(rows, batch, firstId) == rows + Inserted(batch, firstId)
  {
    if batch != [] {
      var n := |batch| - 1;
      var init := batch[..n];
      assert forall i :: 0 <= i < n ==> init[i] == batch[i];
      UpsertedAppends(rows, init, firstId);
      LastKeyFree(rows, batch, firstId);
      UpsertedAppendsStep(rows, batch, firstId);
    }
  }

  /** The induction step: the last row of the batch, with a new key, goes at the end. */
  lemma UpsertedAppendsStep(rows: seq<ScheduledRow>, batch: seq<NewRow>, firstId: nat)
    requires batch != []
    requires Upserted(rows, batch[..|batch| - 1], firstId) == rows + Inserted(batch[..|batch| - 1], firstId)
    requires KeyFree(rows + Inserted(batch[..|batch| - 1], firstId), batch[|batch| - 1])
    ensures Upserted(rows, batch, firstId) == rows + Inserted(batch, firstId)
  {
    var n := |batch| - 1;
    var front := Inserted(batch[..n], firstId);
    var f := FreshRow(batch[n], firstId + n);
    UpsertOneFree(rows + front, batch[n], firstId + n);
    InsertedSnoc(batch, firstId);
    AppendAssoc(rows, front, [f]);
  }

  /** A row whose key is new is appended. */
  lemma UpsertOneFree(rows: seq<ScheduledRow>, r: NewRow, id: nat)
    requires KeyFree(rows, r)
    ensures UpsertOne(rows, r, id) == rows + [FreshRow(r, id)]
  {
  }

  lemma AppendAssoc(a: seq<ScheduledRow>, b: seq<ScheduledRow>, c: seq<ScheduledRow>)
    ensures (a + b) + c == a + (b + c)
  {
  }

  lemma LastKeyFree(rows: seq<ScheduledRow>, batch: seq<NewRow>, firstId: nat)
    requires batch != []
    requires KeyFree(rows, batch[|batch| - 1])
    requires BatchKeysDistinct(batch)
    ensures KeyFree(rows + Inserted(batch[..|batch| - 1], firstId), batch[|batch| - 1])
  {
    var n := |batch| - 1;
    var mid := rows + Inserted(batch[..n], firstId);
    var last := batch[n];
    forall j | 0 <= j < |mid| ensures !SameKey(mid[j], last.userId, last.workoutDate) {
      if j >= |rows| {
        assert mid[j] == FreshRow(batch[j - |rows|], firstId + j - |rows|);
      } else {
        assert mid[j] == rows[j];
      }
    }
  }

  lemma InsertedSnoc(batch: seq<NewRow>, firstId: nat)
    requires batch != []
    ensures Inserted(batch, firstId)
      == Inserted(batch[..|batch| - 1], firstId) + [FreshRow(batch[|batch| - 1], firstId + |batch| - 1)]
  {
  }

  // ---------------------------------------------------------------------
  // The week's rows

  function InWeek(userId: string, start: int): ScheduledRow -> bool {
    (r: ScheduledRow) => r.userId == userId && start <= r.workoutDate <= start + 6
  }

  function DateRank(r: ScheduledRow): (int, int) {
    (r.workoutDate, 0)
  }

  /** The select: the user's rows from Monday `start` to the Sunday after, ordered by date. */
  function WeekOf(rows: seq<ScheduledRow>, userId: string, start: int): (week: seq<ScheduledRow>)
    ensures Sorting.SortedBy(week, DateRank)
    ensures forall r :: r in week <==> r in rows && r.userId == userId && start <= r.workoutDate <= start + 6
  {
    var picked := Seqs.Filter(rows, InWeek(userId, start));
    var week := Sorting.SortBy(picked, DateRank);
    Seqs.FilterMembers(rows, InWeek(userId, start));
    Sorting.SortByMembers(picked, DateRank);
    week
  }

  function OffsetRows(userId: string, planId: Option<string>, start: int, offsets: seq<int>): (rows: seq<NewRow>)
    ensures |rows| == |offsets|
    ensures forall k :: 0 <= k < |offsets| ==> rows[k] == NewRow(userId, planId, start + offsets[k], k)
  {
    seq(|offsets|, k requires 0 <= k < |offsets| => NewRow(userId, planId, start + offsets[k], k))
  }

  function DatesOf(rows: seq<ScheduledRow>): set<int> {
    set r | r in rows :: r.workoutDate
  }

  function NotOn(dates: set<int>): NewRow -> bool {
    (r: NewRow) => r.workoutDate !in dates
  }

  /** The planned slots of the week whose date has no row yet. */
  function MissingRows(userId: string, planId: Option<string>, start: int, offsets: seq<int>, existing: seq<ScheduledRow>): seq<NewRow> {
    Seqs.Filter(OffsetRows(userId, planId, start, offsets), NotOn(DatesOf(existing)))
  }

  /** Every slot of `offsets` has a row of the user. */
  predicate SlotsFilled(rows: seq<ScheduledRow>, userId: string, start: int, offsets: seq<int>) {
    forall k :: 0 <= k < |offsets| ==> HasRowOn(rows, userId, start + offsets[k])
  }

  /** Rows that carry this batch's choices: the user, the plan, a slot date and that slot's index. */
  predicate IsSlotRow(r: ScheduledRow, userId: string, planId: Option<string>, start: int, offsets: seq<int>) {
    r.userId == userId && r.planId == planId && r.status == Planned && r.sessionId.None?
    && 0 <= r.dayIndex < |offsets| && r.workoutDate == start + offsets[r.dayIndex]
  }

  predicate IsSlot(r: NewRow, userId: string, planId: Option<string>, start: int, offsets: seq<int>) {
    r.userId == userId && r.planId == planId && 0 <= r.dayIndex < |offsets| && r.workoutDate == start + offsets[r.dayIndex]
  }

  /** The date has a row of the user already, or the batch brings one. */
  predicate SlotCovered(rows: seq<ScheduledRow>, batch: seq<NewRow>, userId: string, date: int) {
    HasRowOn(rows, userId, date) || exists i :: 0 <= i < |batch| && batch[i].workoutDate == date
  }

  /** Every missing row is a slot row of the week whose date has no row of the user yet. */
  lemma MissingRowsAreNew(
    rows: seq<ScheduledRow>, userId: string, planId: Option<string>, start: int, offsets: seq<int>)
    requires StrictlyIncreasing(offsets)
    requires forall k :: 0 <= k < |offsets| ==> 0 <= offsets[k] <= 6
    ensures var batch := MissingRows(userId, planId, start, offsets, WeekOf(rows, userId, start));
      (forall i :: 0 <= i < |batch| ==> KeyFree(rows, batch[i]))
      && BatchKeysDistinct(batch)
      && (forall i :: 0 <= i < |batch| ==> IsSlot(batch[i], userId, planId, start, offsets))
      && (forall k :: 0 <= k < |offsets| ==> SlotCovered(rows, batch, userId, start + offsets[k]))
  {
    MissingAreSlots(rows, userId, planId, start, offsets);
    MissingKeyFree(rows, userId, planId, start, offsets);
    MissingDistinct(rows, userId, planId, start, offsets);
    MissingCover(rows, userId, planId, start, offsets);
  }

  lemma MissingAreSlots(
    rows: seq<ScheduledRow>, userId: string, planId: Option<string>, start: int, offsets: seq<int>)
    ensures var batch := MissingRows(userId, planId, start, offsets, WeekOf(rows, userId, start));
      forall i :: 0 <= i < |batch| ==> IsSlot(batch[i], userId, planId, start, offsets)
  {
    var all := OffsetRows(userId, planId, start, offsets);
    var batch := MissingRows(userId, planId, start, offsets, WeekOf(rows, userId, start));
    assert forall i :: 0 <= i < |batch| ==> batch[i] in all;
  }

  lemma MissingKeyFree(
    rows: seq<ScheduledRow>, userId: string, planId: Option<string>, start: int, offsets: seq<int>)
    requires forall k :: 0 <= k < |offsets| ==> 0 <= offsets[k] <= 6
    ensures var batch := MissingRows(userId, planId, start, offsets, WeekOf(rows, userId, start));
      forall i :: 0 <= i < |batch| ==> KeyFree(rows, batch[i])
  {
    var existing := WeekOf(rows, userId, start);
    var all := OffsetRows(userId, planId, start, offsets);
    var batch := MissingRows(userId, planId, start, offsets, existing);
    MissingAreSlots(rows, userId, planId, start, offsets);
    forall i | 0 <= i < |batch| ensures KeyFree(rows, batch[i]) {
      assert NotOn(DatesOf(existing))(batch[i]);
    }
  }

  lemma MissingDistinct(
    rows: seq<ScheduledRow>, userId: string, planId: Option<string>, start: int, offsets: seq<int>)
    requires StrictlyIncreasing(offsets)
    ensures BatchKeysDistinct(MissingRows(userId, planId, start, offsets, WeekOf(rows, userId, start)))
  {
    var all := OffsetRows(userId, planId, start, offsets);
    var batch := MissingRows(userId, planId, start, offsets, WeekOf(rows, userId, start));
    FilterSubsequence(all, NotOn(DatesOf(WeekOf(rows, userId, start))));
    MissingAreSlots(rows, userId, planId, start, offsets);
  }

  lemma MissingCover(
    rows: seq<ScheduledRow>, userId: string, planId: Option<string>, start: int, offsets: seq<int>)
    ensures var batch := MissingRows(userId, planId, start, offsets, WeekOf(rows, userId, start));
      forall k :: 0 <= k < |offsets| ==> SlotCovered(rows, batch, userId, start + offsets[k])
  {
    MissingCoverOf(rows, WeekOf(rows, userId, start), userId, planId, start, offsets);
  }

  /** The same for any selection of the user's own rows. */
  lemma MissingCoverOf(
    rows: seq<ScheduledRow>, existing: seq<ScheduledRow>,
    userId: string, planId: Option<string>, start: int, offsets: seq<int>)
    requires forall r :: r in existing ==> r in rows && r.userId == userId
    ensures var batch := MissingRows(userId, planId, start, offsets, existing);
      forall k :: 0 <= k < |offsets| ==> SlotCovered(rows, batch, userId, start + offsets[k])
  {
    var all := OffsetRows(userId, planId, start, offsets);
    var p := NotOn(DatesOf(existing));
    var batch := Seqs.Filter(all, p);
    forall k | 0 <= k < |offsets| ensures SlotCovered(rows, batch, userId, start + offsets[k]) {
      if !HasRowOn(rows, userId, start + offsets[k]) {
        OwnDatesHaveRows(rows, existing, userId, start + offsets[k]);
        assert p(all[k]);
        var i :| 0 <= i < |batch| && batch[i] == all[k];
      }
    }
  }

  /** A date without a row of the user is not a date of a selection of the user's rows. */
  lemma OwnDatesHaveRows(rows: seq<ScheduledRow>, existing: seq<ScheduledRow>, userId: string, date: int)
    requires forall r :: r in existing ==> r in rows && r.userId == userId
    requires !HasRowOn(rows, userId, date)
    ensures date !in DatesOf(existing)
  {
    forall r | r in existing ensures r.workoutDate != date {
      var j :| 0 <= j < |rows| && rows[j] == r;
      assert !SameKey(rows[j], userId, date);
    }
  }

  /** Appending the batch's fresh rows fills every slot, and each appended row is a slot row. */
  lemma InsertedFillsSlots(
    rows: seq<ScheduledRow>, batch: seq<NewRow>, firstId: nat,
    userId: string, planId: Option<string>, start: int, offsets: seq<int>)
    requires forall i :: 0 <= i < |batch| ==> IsSlot(batch[i], userId, planId, start, offsets)
    requires forall i :: 0 <= i < |batch| ==> KeyFree(rows, batch[i])
    requires forall k :: 0 <= k < |offsets| ==> SlotCovered(rows, batch, userId, start + offsets[k])
    ensures SlotsFilled(rows + Inserted(batch, firstId), userId, start, offsets)
    ensures forall j :: |rows| <= j < |rows| + |batch| ==>
      IsSlotRow((rows + Inserted(batch, firstId))[j], userId, planId, start, offsets)
    ensures SlotsFilled(rows, userId, start, offsets) ==> batch == []
  {
    var after := rows + Inserted(batch, firstId);
    forall k | 0 <= k < |offsets| ensures HasRowOn(after, userId, start + offsets[k]) {
      if HasRowOn(rows, userId, start + offsets[k]) {
        var j :| 0 <= j < |rows| && SameKey(rows[j], userId, start + offsets[k]);
        assert after[j] == rows[j];
      } else {
        var i :| 0 <= i < |batch| && batch[i].workoutDate == start + offsets[k];
        assert SameKey(after[|rows| + i], userId, start + offsets[k]);
      }
    }
    forall j | |rows| <= j < |rows| + |batch| ensures IsSlotRow(after[j], userId, planId, start, offsets) {
      assert after[j] == FreshRow(batch[j - |rows|], firstId + j - |rows|);
    }
    if batch != [] {
      assert !HasRowOn(rows, userId, start + offsets[batch[0].dayIndex]);
    }
  }

  /** The filter keeps its elements in order, each at its original position or earlier. */
  lemma {:induction false} FilterSubsequence(all: seq<NewRow>, p: NewRow -> bool)
    requires forall i, j :: 0 <= i < j < |all| ==> all[i].dayIndex < all[j].dayIndex
    ensures forall i, j :: 0 <= i < j < |Seqs.Filter(all, p)| ==>
      Seqs.Filter(all, p)[i].dayIndex < Seqs.Filter(all, p)[j].dayIndex
  {
    if all != [] {
      FilterSubsequence(all[1..], p);
      var rest := Seqs.Filter(all[1..], p);
      assert forall k :: 0 <= k < |rest| ==> rest[k] in all[1..];
      assert forall x :: x in all[1..] ==> all[0].dayIndex < x.dayIndex;
    }
  }

  /** The `scheduled_workouts` table, with the counter its fresh ids come from. */
  class ScheduleStore {
    var rows: seq<ScheduledRow>
    var nextId: nat

    ghost predicate Valid()
      reads this
    {
      TableOk(rows, nextId)
    }

    constructor()
      ensures Valid() && rows == []
    {
      rows := [];
      nextId := 0;
    }

    /** The select of the week starting on Monday `start`. */
    function WeekRows(userId: string, start: int): seq<ScheduledRow>
      reads this
    {
      WeekOf(rows, userId, start)
    }

    /** `upsert(batch, { onConflict: 'user_id,workout_date' })`. */
    method Upsert(batch: seq<NewRow>)
      requires Valid()
      modifies this
      ensures Valid()
      ensures rows == Upserted(old(rows), batch, old(nextId))
      ensures nextId == old(nextId) + |batch|
      ensures KeepsKeys(old(rows), rows)
    {
      UpsertedValid(rows, batch, nextId);
      UpsertedKeepsKeys(rows, batch, nextId);
      rows, nextId := Upserted(rows, batch, nextId), nextId + |batch|;
    }

    /**
     * `ensureWeekSchedule(userId, plan, planId)` on day `today`: below the
     * target number of rows in the week, the slots without a row are added as
     * planned rows (existing rows are left as they are); then the week is
     * selected again.
     */
    method EnsureWeek(userId: string, daysPerWeek: Option<int>, planDayCount: int, planId: Option<string>, today: int)
      returns (week: seq<ScheduledRow>)
      requires Valid()
      modifies this
      ensures Valid()
      ensures week == WeekOf(rows, userId, Cycle.WeekStart(today))
      ensures old(rows) <= rows
      ensures var start, target := Cycle.WeekStart(today), TargetDays(daysPerWeek, planDayCount);
        var offsets := GetOffsetsForWeek(target);
        (|WeekOf(old(rows), userId, start)| >= target || SlotsFilled(old(rows), userId, start, offsets) ==> rows == old(rows))
        && (|WeekOf(old(rows), userId, start)| < target ==> SlotsFilled(rows, userId, start, offsets))
        && (forall j :: |old(rows)| <= j < |rows| ==> IsSlotRow(rows[j], userId, planId, start, offsets))
    {
      var start := Cycle.WeekStart(today);
      var target := TargetDays(daysPerWeek, planDayCount);
      var offsets := GetOffsetsForWeek(target);
      var existing := WeekRows(userId, start);
      if |existing| < target {
        InsertMissingSlots(userId, planId, start, offsets);
      }
      week := WeekRows(userId, start);
    }

    /** The upsert of the week's slots that have no row of the user yet. */
    method InsertMissingSlots(userId: string, planId: Option<string>, start: int, offsets: seq<int>)
      requires Valid()
      requires StrictlyIncreasing(offsets)
      requires forall k :: 0 <= k < |offsets| ==> 0 <= offsets[k] <= 6
      modifies this
      ensures Valid()
      ensures old(rows) <= rows
      ensures SlotsFilled(rows, userId, start, offsets)
      ensures SlotsFilled(old(rows), userId, start, offsets) ==> rows == old(rows)
      ensures forall j :: |old(rows)| <= j < |rows| ==> IsSlotRow(rows[j], userId, planId, start, offsets)
    {
      var batch := MissingRows(userId, planId, start, offsets, WeekRows(userId, start));
      MissingRowsAreNew(rows, userId, planId, start, offsets);
      InsertedFillsSlots(rows, batch, nextId, userId, planId, start, offsets);
      if |batch| > 0 {
        UpsertedAppends(rows, batch, nextId);
        Upsert(batch);
      } else {
        assert rows + Inserted(batch, nextId) == rows;
      }
    }

    /** Calling `ensureWeekSchedule` twice on the same day leaves the second call nothing to do. */
    method EnsureWeekTwice(userId: string, daysPerWeek: Option<int>, planDayCount: int, planId: Option<string>, today: int)
      returns (first: seq<ScheduledRow>, second: seq<ScheduledRow>)
      requires Valid()
      modifies this
      ensures Valid()
      ensures first == second
    {
      first := EnsureWeek(userId, daysPerWeek, planDayCount, planId, today);
      second := EnsureWeek(userId, daysPerWeek, planDayCount, planId, today);
    }
  }
}
