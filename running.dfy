/**
 * lib/coach/running.ts: pace zones derived from a runner's baseline, and the
 * pace prescribed for one running workout in a given cycle week. Paces are
 * seconds per kilometre; a pace of 0 counts as missing, as JavaScript's
 * truthiness has it.
 */
module Running {
  import opened Wrappers
  import opened Types
  import opened Text

  /** `Math.round(x)`: the nearest integer, halves rounding up. */
  function JsRound(x: real): (r: int)
    ensures r as real <= x + 0.5 < r as real + 1.0
  {
    (x + 0.5).Floor
  }

  lemma JsRoundMonotone(x: real, y: real)
    requires x <= y
    ensures JsRound(x) <= JsRound(y)
  {
  }

  /** An integer keeps its value. */
  lemma JsRoundOfInt(n: int)
    ensures JsRound(n as real) == n
  {
  }

  predicate TruthyInt(v: Option<int>) {
    v.Some? && v.value != 0
  }

  predicate TruthyReal(v: Option<real>) {
    v.Some? && v.value != 0.0
  }

  datatype Zones = Zones(easy: Option<int>, tempo: Option<int>, interval: Option<int>)

  /**
   * The zone derivation shared by the coach and the session builder: from a
   * 5 km pace when there is one, otherwise each zone from the slower one.
   */
  function ZonesFromPace(fiveKPace: Option<real>, easyBaseline: Option<int>): (z: Zones)
    ensures easyBaseline.Some? ==> z.easy == easyBaseline
    ensures z.easy.Some? <==> easyBaseline.Some? || TruthyReal(fiveKPace)
    ensures z.tempo.Some? <==> TruthyReal(fiveKPace) || TruthyInt(z.easy)
    ensures z.interval.Some? <==> TruthyReal(fiveKPace) || TruthyInt(z.tempo)
    ensures easyBaseline.None? && TruthyReal(fiveKPace) ==> z.easy == Some(JsRound(fiveKPace.value * 1.2))
    ensures TruthyReal(fiveKPace) ==>
      z.tempo == Some(JsRound(fiveKPace.value * 1.06)) && z.interval == Some(JsRound(fiveKPace.value * 0.95))
    ensures !TruthyReal(fiveKPace) && TruthyInt(z.easy) ==> z.tempo == Some(JsRound(z.easy.value as real * 0.9))
    ensures !TruthyReal(fiveKPace) && TruthyInt(z.tempo) ==> z.interval == Some(JsRound(z.tempo.value as real * 0.95))
  {
    var easy :=
      if easyBaseline.Some? then easyBaseline
      else if TruthyReal(fiveKPace) then Some(JsRound(fiveKPace.value * 1.2))
      else None;
    var tempo :=
      if TruthyReal(fiveKPace) then Some(JsRound(fiveKPace.value * 1.06))
      else if TruthyInt(easy) then Some(JsRound(easy.value as real * 0.9))
      else None;
    var interval :=
      if TruthyReal(fiveKPace) then Some(JsRound(fiveKPace.value * 0.95))
      else if TruthyInt(tempo) then Some(JsRound(tempo.value as real * 0.95))
      else None;
    Zones(easy, tempo, interval)
  }

  /**
   * From non-negative inputs the zones are ordered: intervals no slower than
   * tempo, and tempo no slower than easy unless the easy pace was given
   * alongside a 5 km time.
   */
  lemma {:induction false} ZonesOrdered(fiveKPace: Option<real>, easyBaseline: Option<int>)
    requires fiveKPace.Some? ==> fiveKPace.value >= 0.0
    requires easyBaseline.Some? ==> easyBaseline.value >= 0
    ensures var z := ZonesFromPace(fiveKPace, easyBaseline);
      (z.interval.Some? && z.tempo.Some? ==> 0 <= z.interval.value <= z.tempo.value)
      && (z.tempo.Some? && z.easy.Some? && (easyBaseline.None? || !TruthyReal(fiveKPace)) ==>
            z.tempo.value <= z.easy.value)
  {
    var z := ZonesFromPace(fiveKPace, easyBaseline);
    if TruthyReal(fiveKPace) {
      var p := fiveKPace.value;
      JsRoundMonotone(p * 0.95, p * 1.06);
      JsRoundMonotone(p * 1.06, p * 1.2);
      JsRoundMonotone(0.0, p * 0.95);
    } else if z.tempo.Some? {
      var e := z.easy.value;
      JsRoundMonotone(e as real * 0.9, e as real);
      JsRoundOfInt(e);
      JsRoundMonotone(0.0, e as real * 0.9);
      JsRoundOfInt(0);
      if z.interval.Some? {
        var t := z.tempo.value;
        JsRoundMonotone(t as real * 0.95, t as real);
        JsRoundMonotone(0.0, t as real * 0.95);
        JsRoundOfInt(t);
      }
    }
  }

  /** `baselineToZones(baseline)`: the 5 km pace is the 5 km time over five. */
  function BaselineToZones(baseline: Baseline): (z: Zones)
    ensures baseline.easyPaceSecPerKm.Some? ==> z.easy == baseline.easyPaceSecPerKm
    ensures TruthyInt(baseline.fivekTimeSec) ==>
      var p := baseline.fivekTimeSec.value as real / 5.0;
      (baseline.easyPaceSecPerKm.None? ==> z.easy == Some(JsRound(p * 1.2)))
      && z.tempo == Some(JsRound(p * 1.06)) && z.interval == Some(JsRound(p * 0.95))
    ensures !TruthyInt(baseline.fivekTimeSec) ==>
      && z.easy == baseline.easyPaceSecPerKm
      && (TruthyInt(z.easy) ==> z.tempo == Some(JsRound(z.easy.value as real * 0.9)))
      && (!TruthyInt(z.easy) ==> z.tempo.None?)
      && (TruthyInt(z.tempo) ==> z.interval == Some(JsRound(z.tempo.value as real * 0.95)))
      && (!TruthyInt(z.tempo) ==> z.interval.None?)
  {
    var fiveK := baseline.fivekTimeSec;
    var fiveKPace := if TruthyInt(fiveK) then Some(fiveK.value as real / 5.0) else None;
    ZonesFromPace(fiveKPace, baseline.easyPaceSecPerKm)
  }

  /** A 25-minute 5 km: easy 360, tempo 318, intervals 285 seconds per kilometre. */
  lemma FiveKExample()
    ensures BaselineToZones(EmptyBaseline.(fivekTimeSec := Some(1500))) == Zones(Some(360), Some(318), Some(285))
  {
    assert JsRound(300.0 * 1.2) == 360;
    assert JsRound(300.0 * 1.06) == 318;
    assert JsRound(300.0 * 0.95) == 285;
  }

  /** From week 2 on, each week takes 1 % off the tempo and interval paces. */
  function WeekBoost(progressionWeek: int): (b: real)
    ensures b >= 0.0
    ensures progressionWeek <= 1 ==> b == 0.0
    ensures progressionWeek > 1 ==> b == (progressionWeek - 1) as real / 100.0
  {
    (if progressionWeek > 1 then progressionWeek - 1 else 0) as real * 0.01
  }

  lemma WeekBoostMonotone(week1: int, week2: int)
    requires week1 <= week2
    ensures WeekBoost(week1) <= WeekBoost(week2)
  {
    var k1 := if week1 > 1 then week1 - 1 else 0;
    var k2 := if week2 > 1 then week2 - 1 else 0;
    assert k1 <= k2;
    assert k1 as real * 0.01 <= k2 as real * 0.01;
  }

  /** A zone pace with the week's boost taken off, rounded. */
  function ScaledPace(pace: int, boost: real): int {
    JsRound(pace as real * (1.0 - boost))
  }

  /** `recommendPaceForWorkout(type, zones, progressionWeek)`. */
  function RecommendPaceForWorkout(workoutType: string, zones: Zones, progressionWeek: int): (pace: Option<int>)
    ensures Contains(workoutType, "interval") ==> (pace.Some? <==> TruthyInt(zones.interval))
    ensures Contains(workoutType, "interval") && TruthyInt(zones.interval) ==>
      pace == Some(JsRound(zones.interval.value as real * (1.0 - WeekBoost(progressionWeek))))
    ensures !Contains(workoutType, "interval") && Contains(workoutType, "tempo") ==>
      (pace.Some? <==> TruthyInt(zones.tempo))
    ensures !Contains(workoutType, "interval") && Contains(workoutType, "tempo") && TruthyInt(zones.tempo) ==>
      pace == Some(JsRound(zones.tempo.value as real * (1.0 - WeekBoost(progressionWeek))))
    ensures !Contains(workoutType, "interval") && !Contains(workoutType, "tempo") ==> pace == zones.easy
  {
    var boost := WeekBoost(progressionWeek);
    if Contains(workoutType, "interval") then
      if TruthyInt(zones.interval) then Some(ScaledPace(zones.interval.value, boost)) else None
    else if Contains(workoutType, "tempo") then
      if TruthyInt(zones.tempo) then Some(ScaledPace(zones.tempo.value, boost)) else None
    else zones.easy
  }

  /** Zone pace scaled by the week's boost. */
  lemma ScaledPaceMonotone(z: int, b1: real, b2: real)
    requires z >= 0 && 0.0 <= b1 <= b2
    ensures ScaledPace(z, b2) <= ScaledPace(z, b1)
  {
    assert z as real * (1.0 - b2) == z as real * (1.0 - b1) - z as real * (b2 - b1);
    assert z as real * (b2 - b1) >= 0.0;
    JsRoundMonotone(z as real * (1.0 - b2), z as real * (1.0 - b1));
  }

  /** In the first week the workout runs at its zone's pace. */
  lemma FirstWeekUsesZonePace(workoutType: string, zones: Zones, progressionWeek: int)
    requires progressionWeek <= 1
    ensures var pace := RecommendPaceForWorkout(workoutType, zones, progressionWeek);
      (Contains(workoutType, "interval") && TruthyInt(zones.interval) ==> pace == zones.interval)
      && (!Contains(workoutType, "interval") && Contains(workoutType, "tempo") && TruthyInt(zones.tempo) ==>
            pace == zones.tempo)
  {
    if Contains(workoutType, "interval") && TruthyInt(zones.interval) {
      assert zones.interval.value as real * (1.0 - 0.0) == zones.interval.value as real;
      JsRoundOfInt(zones.interval.value);
    } else if Contains(workoutType, "tempo") && TruthyInt(zones.tempo) {
      assert zones.tempo.value as real * (1.0 - 0.0) == zones.tempo.value as real;
      JsRoundOfInt(zones.tempo.value);
    }
  }

  /** Later weeks never prescribe a slower pace for the same workout. */
  lemma PaceTightensOverWeeks(workoutType: string, zones: Zones, week1: int, week2: int)
    requires week1 <= week2
    requires zones.tempo.Some? ==> zones.tempo.value >= 0
    requires zones.interval.Some? ==> zones.interval.value >= 0
    ensures var p1, p2 := RecommendPaceForWorkout(workoutType, zones, week1), RecommendPaceForWorkout(workoutType, zones, week2);
      p1.Some? == p2.Some? && (p1.Some? ==> p2.value <= p1.value)
  {
    var b1, b2 := WeekBoost(week1), WeekBoost(week2);
    WeekBoostMonotone(week1, week2);
    if Contains(workoutType, "interval") && TruthyInt(zones.interval) {
      ScaledPaceMonotone(zones.interval.value, b1, b2);
    } else if !Contains(workoutType, "interval") && Contains(workoutType, "tempo") && TruthyInt(zones.tempo) {
      ScaledPaceMonotone(zones.tempo.value, b1, b2);
    }
  }
}
