/**
 * The stat-override engine: clamps for the three numeric domains, the
 * circle-size override, clock-rate resolution, and the AR/OD rescaling that
 * inverts the timing formulas so that a "locked" stat keeps its effective
 * value under a changed clock rate.
 */
module Stats {
  import opened Wrappers
  import opened Beatmaps

  // ---------------------------------------------------------------------------
  // Clamps
  // ---------------------------------------------------------------------------

  /** Bounds `value` to [lo, hi] (the library's `clamp`). */
  function Clamp(value: real, lo: real, hi: real): (r: real)
    requires lo <= hi
    ensures lo <= r <= hi
    ensures lo <= value <= hi ==> r == value
    ensures value < lo ==> r == lo
    ensures hi < value ==> r == hi
  {
    if value < lo then lo else if hi < value then hi else value
  }

  /** Circle size, AR and OD live in [0, 11]. */
  function ClampStats(value: real): (r: real)
    ensures 0.0 <= r <= 11.0
    ensures 0.0 <= value <= 11.0 ==> r == value
    ensures value < 0.0 ==> r == 0.0
    ensures 11.0 < value ==> r == 11.0
  {
    Clamp(value, 0.0, 11.0)
  }

  /** Clock rate lives in [0.25, 3.0]. */
  function ClampRate(value: real): (r: real)
    ensures 0.25 <= r <= 3.0
    ensures 0.25 <= value <= 3.0 ==> r == value
    ensures value < 0.25 ==> r == 0.25
    ensures 3.0 < value ==> r == 3.0
  {
    Clamp(value, 0.25, 3.0)
  }

  /** A BPM target lives in [60, 10000]. */
  function ClampBpm(value: real): (r: real)
    ensures 60.0 <= r <= 10000.0
    ensures 60.0 <= value <= 10000.0 ==> r == value
    ensures value < 60.0 ==> r == 60.0
    ensures 10000.0 < value ==> r == 10000.0
  {
    Clamp(value, 60.0, 10000.0)
  }

  // ---------------------------------------------------------------------------
  // Circle size
  // ---------------------------------------------------------------------------

  /**
   * The factor by which the size-changing mods scale circle size downstream:
   * HR wins over EZ when both are present.
   */
  function CircleSizeDenominator(mods: ModCombination): (d: real)
    ensures d > 0.0
    ensures mods.Has("HR") ==> d == 1.3
    ensures !mods.Has("HR") && mods.Has("EZ") ==> d == 0.5
    ensures !mods.Has("HR") && !mods.Has("EZ") ==> d == 1.0
  {
    if mods.Has("HR") then 1.3 else if mods.Has("EZ") then 0.5 else 1.0
  }

  /**
   * The difficulty record after the circle-size override. A locked value is the
   * size wanted AFTER mod scaling, so it is stored pre-divided by the mod factor.
   */
  function CustomCircleSize(d: Difficulty, mods: ModCombination, stats: BeatmapCustomStats): (r: Difficulty)
    ensures r.approachRate == d.approachRate && r.overallDifficulty == d.overallDifficulty
    ensures r.clockRate == d.clockRate
    ensures stats.circleSize.None? ==> r == d
    ensures stats.circleSize.Some? ==> 0.0 <= r.circleSize <= 11.0
    ensures stats.circleSize.Some? && !stats.LocksCircleSize() ==> r.circleSize == ClampStats(stats.circleSize.value)
    ensures stats.circleSize.Some? && stats.LocksCircleSize() ==>
      r.circleSize == ClampStats(stats.circleSize.value / CircleSizeDenominator(mods))
    // the mod factor applied downstream gives back exactly the requested size
    ensures (stats.circleSize.Some? && stats.LocksCircleSize() &&
             0.0 <= stats.circleSize.value / CircleSizeDenominator(mods) <= 11.0) ==>
      r.circleSize * CircleSizeDenominator(mods) == stats.circleSize.value
  {
    match stats.circleSize
    case None => d
    case Some(cs) =>
      var denominator := CircleSizeDenominator(mods);
      d.(circleSize := ClampStats(if stats.LocksCircleSize() then cs / denominator else cs))
  }

  /** Overwrites the circle size of `beatmap` with the custom one, if any. */
  method ApplyCustomCircleSize(beatmap: Beatmap, mods: ModCombination, stats: BeatmapCustomStats)
    modifies beatmap.difficulty
    ensures beatmap.difficulty.Values() == CustomCircleSize(old(beatmap.difficulty.Values()), mods, stats)
  {
    if stats.circleSize.None? {
      return;
    }
    var denominator := CircleSizeDenominator(mods);
    var shouldLockCS := stats.LocksCircleSize();
    beatmap.difficulty.circleSize := ClampStats(
      if shouldLockCS then stats.circleSize.value / denominator else stats.circleSize.value);
  }

  // ---------------------------------------------------------------------------
  // Clock rate
  // ---------------------------------------------------------------------------

  /**
   * The clock rate after the rate overrides. A direct rate wins and is clamped;
   * a BPM target gives the rate that plays the map at that (clamped) BPM, and
   * that rate is deliberately NOT clamped to [0.25, 3.0].
   */
  function ResolveClockRate(clockRate: real, stats: BeatmapCustomStats, bpmMode: PositiveReal): (r: real)
    ensures stats.clockRate.Some? ==> r == ClampRate(stats.clockRate.value)
    ensures stats.clockRate.None? && stats.bpm.Some? ==> r * bpmMode == ClampBpm(stats.bpm.value)
    ensures stats.clockRate.None? && stats.bpm.Some? ==> 60.0 / bpmMode <= r <= 10000.0 / bpmMode
    ensures stats.clockRate.None? && stats.bpm.None? ==> r == clockRate
  {
    match stats.clockRate
    case Some(rate) => ClampRate(rate)
    case None =>
      match stats.bpm
      case Some(bpm) => ClampBpm(bpm) / bpmMode
      case None => clockRate
  }

  // ---------------------------------------------------------------------------
  // Approach rate: preempt time
  // ---------------------------------------------------------------------------

  /** Preempt for AR up to 5: 1800 ms at AR 0 down to 1200 ms at AR 5. */
  function PreemptSlow(ar: real): (ms: real)
    ensures 0.0 <= ar <= 5.0 ==> 1200.0 <= ms <= 1800.0
  {
    1800.0 - ar * 120.0
  }

  /** Preempt for AR above 5: 1200 ms at AR 5 down to 450 ms at AR 10. */
  function PreemptFast(ar: real): (ms: real)
    ensures 5.0 <= ar <= 11.0 ==> 300.0 <= ms <= 1200.0
  {
    1200.0 - (ar - 5.0) * 150.0
  }

  /** Preempt time (ms) of an approach rate. */
  function PreemptMs(ar: real): (ms: real)
    ensures 0.0 <= ar <= 11.0 ==> 300.0 <= ms <= 1800.0
    ensures ms <= 1200.0 <==> ar >= 5.0
  {
    if ar <= 5.0 then PreemptSlow(ar) else PreemptFast(ar)
  }

  /** AR from a preempt time at or below 1200 ms (AR 5 and up). */
  function ArFromShortPreempt(ms: real): (ar: real)
    ensures 300.0 <= ms <= 1200.0 ==> 5.0 <= ar <= 11.0
  {
    ((ms - 1200.0) * 5.0 / (450.0 - 1200.0)) + 5.0
  }

  /** AR from a preempt time above 1200 ms (AR below 5). */
  function ArFromLongPreempt(ms: real): (ar: real)
    ensures 1200.0 <= ms <= 1800.0 ==> 0.0 <= ar <= 5.0
  {
    5.0 - ((ms - 1200.0) * 5.0 / (1800.0 - 1200.0))
  }

  /** The approach rate whose preempt time is `ms`: the inverse of PreemptMs. */
  function ApproachRateFromPreempt(ms: real): (ar: real)
    ensures ms <= 1200.0 <==> ar >= 5.0
    ensures 300.0 <= ms <= 1800.0 ==> 0.0 <= ar <= 11.0
  {
    if ms <= 1200.0 then ArFromShortPreempt(ms) else ArFromLongPreempt(ms)
  }

  /**
   * The AR stored for a locked request that has already been clamped to
   * `approachRate`: only Osu and Fruits rescale it for the clock rate.
   */
  function LockedApproachRate(mode: GameMode, approachRate: real, clockRate: real): (r: real)
    ensures mode !in {Osu, Fruits} ==> r == approachRate
  {
    match mode
    case Osu | Fruits => ApproachRateFromPreempt(PreemptMs(approachRate) * clockRate)
    case _ => approachRate
  }

  /**
   * The approach rate to store. Locked in Osu or Fruits mode, the stored AR's
   * preempt time is the requested AR's preempt time stretched by the clock
   * rate, so that after the rate is applied the player sees the requested AR.
   * The result of that inversion is not clamped again.
   */
  function ScaledAR(mode: GameMode, approachRate: real, clockRate: real, stats: BeatmapCustomStats): (r: real)
    ensures stats.approachRate.None? ==> r == approachRate
    ensures stats.approachRate.Some? && !stats.LocksApproachRate() ==> r == ClampStats(stats.approachRate.value)
    ensures stats.approachRate.Some? && stats.LocksApproachRate() && mode !in {Osu, Fruits} ==>
      r == ClampStats(stats.approachRate.value)
  {
    match stats.approachRate
    case None => approachRate
    case Some(ar) =>
      if !stats.LocksApproachRate() then ClampStats(ar)
      else
        LockedApproachRate(mode, ClampStats(ar), clockRate)
  }

  // ---------------------------------------------------------------------------
  // Overall difficulty: the "great" hit window
  // ---------------------------------------------------------------------------

  /** Half-width (ms) of the "great" hit window: 80 at OD 0, 50 at OD 5, 20 at OD 10. */
  function HitWindowGreat(od: real): (hw: real)
    ensures 0.0 <= od <= 11.0 ==> 14.0 <= hw <= 80.0
  {
    80.0 - 6.0 * od
  }

  /** OD from a hit window at or below 50 ms (OD 5 and up). */
  function OdFromNarrowWindow(hw: real): (od: real)
    ensures 14.0 <= hw <= 50.0 ==> 5.0 <= od <= 11.0
  {
    ((hw - 50.0) * 5.0 / (20.0 - 50.0)) + 5.0
  }

  /** OD from a hit window above 50 ms (OD below 5). */
  function OdFromWideWindow(hw: real): (od: real)
    ensures 50.0 <= hw <= 80.0 ==> 0.0 <= od <= 5.0
  {
    5.0 - ((hw - 50.0) * 5.0 / (80.0 - 50.0))
  }

  /** The overall difficulty whose "great" hit window is `hw`: the inverse of HitWindowGreat. */
  function OverallDifficultyFromHitWindow(hw: real): (od: real)
    ensures hw <= 50.0 <==> od >= 5.0
    ensures 14.0 <= hw <= 80.0 ==> 0.0 <= od <= 11.0
  {
    if hw <= 50.0 then OdFromNarrowWindow(hw) else OdFromWideWindow(hw)
  }

  /**
   * The OD stored for a locked request that has already been clamped to
   * `overallDifficulty`: only Osu rescales it for the clock rate.
   */
  function LockedOverallDifficulty(mode: GameMode, overallDifficulty: real, clockRate: real): (r: real)
    ensures mode != Osu ==> r == overallDifficulty
  {
    match mode
    case Osu => OverallDifficultyFromHitWindow(HitWindowGreat(overallDifficulty) * clockRate)
    case Taiko => overallDifficulty
    case _ => overallDifficulty
  }

  /**
   * The overall difficulty to store. Locked in Osu mode, the stored OD's hit
   * window is the requested OD's window stretched by the clock rate; Taiko and
   * the other modes take the clamped request as it is.
   */
  function ScaledOD(mode: GameMode, overallDifficulty: real, clockRate: real, stats: BeatmapCustomStats): (r: real)
    ensures stats.overallDifficulty.None? ==> r == overallDifficulty
    ensures stats.overallDifficulty.Some? && !stats.LocksOverallDifficulty() ==>
      r == ClampStats(stats.overallDifficulty.value)
    ensures stats.overallDifficulty.Some? && stats.LocksOverallDifficulty() && mode != Osu ==>
      r == ClampStats(stats.overallDifficulty.value)
  {
    match stats.overallDifficulty
    case None => overallDifficulty
    case Some(od) =>
      if !stats.LocksOverallDifficulty() then ClampStats(od)
      else
        LockedOverallDifficulty(mode, ClampStats(od), clockRate)
  }

  // ---------------------------------------------------------------------------
  // Applying the custom stats
  // ---------------------------------------------------------------------------

  /**
   * The difficulty record after the rate, AR and OD overrides. The clock rate
   * is resolved first and AR/OD are scaled at the NEW rate; circle size is
   * left alone.
   */
  function CustomStats(d: Difficulty, mode: GameMode, bpmMode: PositiveReal, stats: BeatmapCustomStats): (r: Difficulty)
    ensures r.circleSize == d.circleSize
    ensures r.clockRate == ResolveClockRate(d.clockRate, stats, bpmMode)
    ensures r.approachRate == ScaledAR(mode, d.approachRate, r.clockRate, stats)
    ensures r.overallDifficulty == ScaledOD(mode, d.overallDifficulty, r.clockRate, stats)
  {
    var clockRate := ResolveClockRate(d.clockRate, stats, bpmMode);
    d.(clockRate := clockRate,
       approachRate := ScaledAR(mode, d.approachRate, clockRate, stats),
       overallDifficulty := ScaledOD(mode, d.overallDifficulty, clockRate, stats))
  }

  /** Overwrites the difficulty stats of `beatmap` with the custom ones. */
  method ApplyCustomStats(beatmap: Beatmap, stats: BeatmapCustomStats)
    modifies beatmap.difficulty
    ensures beatmap.difficulty.Values() ==
      CustomStats(old(beatmap.difficulty.Values()), beatmap.mode, beatmap.bpmMode, stats)
  {
    if stats.clockRate.Some? {
      beatmap.difficulty.clockRate := ClampRate(stats.clockRate.value);
    } else if stats.bpm.Some? {
      // a rate set from a BPM target may leave [0.25, 3.0]
      beatmap.difficulty.clockRate := ClampBpm(stats.bpm.value) / beatmap.bpmMode;
    }
    beatmap.difficulty.approachRate :=
      ScaledAR(beatmap.mode, beatmap.difficulty.approachRate, beatmap.difficulty.clockRate, stats);
    beatmap.difficulty.overallDifficulty :=
      ScaledOD(beatmap.mode, beatmap.difficulty.overallDifficulty, beatmap.difficulty.clockRate, stats);
  }
}
