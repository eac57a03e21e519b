/**
 * Properties of the stat-override engine: the clamps, the forward/inverse
 * timing formulas, the locked AR/OD rescaling, and how the two in-place
 * overrides compose.
 */
module StatsProperties {
  import opened Wrappers
  import opened Beatmaps
  import opened Stats

  // ---------------------------------------------------------------------------
  // Clamps
  // ---------------------------------------------------------------------------

  /** Clamping twice is clamping once, in all three domains. */
  lemma ClampsIdempotent(x: real)
    ensures ClampStats(ClampStats(x)) == ClampStats(x)
    ensures ClampRate(ClampRate(x)) == ClampRate(x)
    ensures ClampBpm(ClampBpm(x)) == ClampBpm(x)
  {
  }

  // ---------------------------------------------------------------------------
  // Preempt time and its inverse
  // ---------------------------------------------------------------------------

  /** Preempt time is strictly decreasing in AR: a higher AR is exactly a shorter preempt. */
  lemma PreemptMsOrder(a: real, b: real)
    ensures a < b <==> PreemptMs(b) < PreemptMs(a)
  {
  }

  /** The AR computed from a preempt time has exactly that preempt time. */
  lemma PreemptMsOfApproachRateFromPreempt(ms: real)
    ensures PreemptMs(ApproachRateFromPreempt(ms)) == ms
  {
  }

  /** Inverting the preempt time of an AR gives back that AR. */
  lemma ApproachRateFromPreemptMs(ar: real)
    ensures ApproachRateFromPreempt(PreemptMs(ar)) == ar
  {
    var back := ApproachRateFromPreempt(PreemptMs(ar));
    PreemptMsOfApproachRateFromPreempt(PreemptMs(ar));
    PreemptMsOrder(back, ar);
    PreemptMsOrder(ar, back);
  }

  /** The two preempt branches meet at AR 5 (1200 ms), and so do the two inverse branches. */
  lemma PreemptBranchesMeet()
    ensures PreemptSlow(5.0) == PreemptFast(5.0) == PreemptMs(5.0) == 1200.0
    ensures ArFromShortPreempt(1200.0) == ArFromLongPreempt(1200.0) == ApproachRateFromPreempt(1200.0) == 5.0
  {
  }

  /** A longer preempt time always means a lower AR. */
  lemma ApproachRateFromPreemptStrictlyDecreasing(m: real, n: real)
    requires m < n
    ensures ApproachRateFromPreempt(n) < ApproachRateFromPreempt(m)
  {
    PreemptMsOfApproachRateFromPreempt(m);
    PreemptMsOfApproachRateFromPreempt(n);
    PreemptMsOrder(ApproachRateFromPreempt(n), ApproachRateFromPreempt(m));
  }

  // ---------------------------------------------------------------------------
  // The "great" hit window and its inverse
  // ---------------------------------------------------------------------------

  /** The OD computed from a hit window has exactly that hit window. */
  lemma HitWindowGreatOfOverallDifficultyFromHitWindow(hw: real)
    ensures HitWindowGreat(OverallDifficultyFromHitWindow(hw)) == hw
  {
  }

  /** A wider hit window always means a lower OD. */
  lemma OverallDifficultyFromHitWindowStrictlyDecreasing(m: real, n: real)
    requires m < n
    ensures OverallDifficultyFromHitWindow(n) < OverallDifficultyFromHitWindow(m)
  {
  }

  /** Inverting the hit window of an OD gives back that OD. */
  lemma OverallDifficultyFromHitWindowGreat(od: real)
    ensures OverallDifficultyFromHitWindow(HitWindowGreat(od)) == od
  {
  }

  /**
   * The two inverse branches are one and the same line, so the split at 50 ms
   * changes nothing; in particular they meet at 50 ms, the window of OD 5.
   */
  lemma HitWindowBranchesCoincide(hw: real)
    ensures OdFromNarrowWindow(hw) == OdFromWideWindow(hw) == (80.0 - hw) / 6.0
    ensures HitWindowGreat(5.0) == 50.0 && OverallDifficultyFromHitWindow(50.0) == 5.0
  {
  }

  /** Stretching a positive duration by a larger rate gives a longer duration. */
  lemma StretchOrder(ms: real, r1: real, r2: real)
    requires ms > 0.0 && r1 < r2
    ensures ms * r1 < ms * r2
  {
    assert ms * r2 - ms * r1 == ms * (r2 - r1);
  }

  // ---------------------------------------------------------------------------
  // Locked / unlocked approach rate
  // ---------------------------------------------------------------------------

  /** Unlocked, the AR override ignores both the clock rate and the game mode. */
  lemma UnlockedARBypassesScaling(m1: GameMode, m2: GameMode, ar: real, r1: real, r2: real, stats: BeatmapCustomStats)
    requires stats.approachRate.Some? && !stats.LocksApproachRate()
    ensures ScaledAR(m1, ar, r1, stats) == ScaledAR(m2, ar, r2, stats) == ClampStats(stats.approachRate.value)
  {
  }

  /** At clock rate 1 the rescaling is the identity: the stored AR is the clamped request, in every mode. */
  lemma ScaledARAtUnitRate(mode: GameMode, ar: real, stats: BeatmapCustomStats)
    requires stats.approachRate.Some?
    ensures ScaledAR(mode, ar, 1.0, stats) == ClampStats(stats.approachRate.value)
  {
    if stats.LocksApproachRate() && mode in {Osu, Fruits} {
      ApproachRateFromPreemptMs(ClampStats(stats.approachRate.value));
    }
  }

  /** In Osu or Fruits mode, the locked AR's preempt time is the given AR's preempt time stretched by the rate. */
  lemma LockedApproachRateStretchesPreempt(mode: GameMode, ar: real, clockRate: real)
    requires mode in {Osu, Fruits}
    ensures PreemptMs(LockedApproachRate(mode, ar, clockRate)) == PreemptMs(ar) * clockRate
  {
    PreemptMsOfApproachRateFromPreempt(PreemptMs(ar) * clockRate);
  }

  /**
   * Locked in Osu or Fruits mode, the stored AR's preempt time is the
   * requested AR's preempt time stretched by the clock rate.
   */
  lemma ScaledARStretchesPreempt(mode: GameMode, ar: real, clockRate: real, stats: BeatmapCustomStats)
    requires stats.approachRate.Some? && stats.LocksApproachRate() && mode in {Osu, Fruits}
    ensures PreemptMs(ScaledAR(mode, ar, clockRate, stats)) == PreemptMs(ClampStats(stats.approachRate.value)) * clockRate
  {
    LockedApproachRateStretchesPreempt(mode, ClampStats(stats.approachRate.value), clockRate);
  }

  /**
   * Locked in Osu or Fruits mode at a positive rate, the preempt time the
   * player sees (the stored AR's preempt divided by the rate) is the requested AR's.
   */
  lemma ScaledAREffectivePreempt(mode: GameMode, ar: real, clockRate: real, stats: BeatmapCustomStats)
    requires stats.approachRate.Some? && stats.LocksApproachRate() && mode in {Osu, Fruits}
    requires clockRate > 0.0
    ensures PreemptMs(ScaledAR(mode, ar, clockRate, stats)) / clockRate == PreemptMs(ClampStats(stats.approachRate.value))
  {
    ScaledARStretchesPreempt(mode, ar, clockRate, stats);
  }

  /** Stretching the preempt time of an AR in [0, 11] by a larger rate gives a lower AR. */
  lemma StretchedPreemptOrder(ar: real, r1: real, r2: real)
    requires 0.0 <= ar <= 11.0 && r1 < r2
    ensures ApproachRateFromPreempt(PreemptMs(ar) * r2) < ApproachRateFromPreempt(PreemptMs(ar) * r1)
  {
    StretchOrder(PreemptMs(ar), r1, r2);
    ApproachRateFromPreemptStrictlyDecreasing(PreemptMs(ar) * r1, PreemptMs(ar) * r2);
  }

  /** Locked in Osu or Fruits mode, a faster clock rate gives a lower AR for a clamped request. */
  lemma LockedApproachRateFallsAsRateRises(mode: GameMode, ar: real, r1: real, r2: real)
    requires mode in {Osu, Fruits} && 0.0 <= ar <= 11.0 && r1 < r2
    ensures LockedApproachRate(mode, ar, r2) < LockedApproachRate(mode, ar, r1)
  {
    StretchedPreemptOrder(ar, r1, r2);
  }

  /** Locked in Osu or Fruits mode, a faster clock rate always stores a lower AR. */
  lemma ScaledARFallsAsRateRises(mode: GameMode, ar: real, r1: real, r2: real, stats: BeatmapCustomStats)
    requires stats.approachRate.Some? && stats.LocksApproachRate() && mode in {Osu, Fruits}
    requires r1 < r2
    ensures ScaledAR(mode, ar, r2, stats) < ScaledAR(mode, ar, r1, stats)
  {
    LockedApproachRateFallsAsRateRises(mode, ClampStats(stats.approachRate.value), r1, r2);
  }

  /** The rescaled AR is not clamped again: extreme rates push it out of [0, 11]. */
  lemma ScaledARLeavesStatRange()
    ensures var stats := BeatmapCustomStats(None, Some(0.0), None, None, None, true, false, false, false);
      ScaledAR(Osu, 9.0, 1.5, stats) == -7.5
    ensures var stats := BeatmapCustomStats(None, Some(11.0), None, None, None, false, false, true, false);
      ScaledAR(Fruits, 9.0, 0.25, stats) == 12.5
  {
  }

  /** AR 9 locked at 1.5x: preempt 600 ms becomes 900 ms, which is AR 7. */
  lemma ScaledARExample()
    ensures var stats := BeatmapCustomStats(None, Some(9.0), None, None, None, true, false, false, false);
      ScaledAR(Osu, 0.0, 1.5, stats) == 7.0
  {
    assert PreemptMs(9.0) == 600.0;
  }

  // ---------------------------------------------------------------------------
  // Locked / unlocked overall difficulty
  // ---------------------------------------------------------------------------

  /** Unlocked, the OD override ignores both the clock rate and the game mode. */
  lemma UnlockedODBypassesScaling(m1: GameMode, m2: GameMode, od: real, r1: real, r2: real, stats: BeatmapCustomStats)
    requires stats.overallDifficulty.Some? && !stats.LocksOverallDifficulty()
    ensures ScaledOD(m1, od, r1, stats) == ScaledOD(m2, od, r2, stats) == ClampStats(stats.overallDifficulty.value)
  {
  }

  /** At clock rate 1 the rescaling is the identity: the stored OD is the clamped request, in every mode. */
  lemma ScaledODAtUnitRate(mode: GameMode, od: real, stats: BeatmapCustomStats)
    requires stats.overallDifficulty.Some?
    ensures ScaledOD(mode, od, 1.0, stats) == ClampStats(stats.overallDifficulty.value)
  {
  }

  /** In Osu mode, the locked OD's hit window is the given OD's window stretched by the rate. */
  lemma LockedOverallDifficultyStretchesHitWindow(od: real, clockRate: real)
    ensures HitWindowGreat(LockedOverallDifficulty(Osu, od, clockRate)) == HitWindowGreat(od) * clockRate
  {
    HitWindowGreatOfOverallDifficultyFromHitWindow(HitWindowGreat(od) * clockRate);
  }

  /** Locked in Osu mode, the stored OD's hit window is the requested OD's window stretched by the clock rate. */
  lemma ScaledODStretchesHitWindow(od: real, clockRate: real, stats: BeatmapCustomStats)
    requires stats.overallDifficulty.Some? && stats.LocksOverallDifficulty()
    ensures HitWindowGreat(ScaledOD(Osu, od, clockRate, stats)) ==
      HitWindowGreat(ClampStats(stats.overallDifficulty.value)) * clockRate
  {
    LockedOverallDifficultyStretchesHitWindow(ClampStats(stats.overallDifficulty.value), clockRate);
  }

  /** Locked in Osu mode at a positive rate, the hit window the player sees is the requested OD's. */
  lemma ScaledODEffectiveHitWindow(od: real, clockRate: real, stats: BeatmapCustomStats)
    requires stats.overallDifficulty.Some? && stats.LocksOverallDifficulty()
    requires clockRate > 0.0
    ensures HitWindowGreat(ScaledOD(Osu, od, clockRate, stats)) / clockRate ==
      HitWindowGreat(ClampStats(stats.overallDifficulty.value))
  {
    ScaledODStretchesHitWindow(od, clockRate, stats);
  }

  /** Stretching the hit window of an OD in [0, 11] by a larger rate gives a lower OD. */
  lemma StretchedHitWindowOrder(od: real, r1: real, r2: real)
    requires 0.0 <= od <= 11.0 && r1 < r2
    ensures OverallDifficultyFromHitWindow(HitWindowGreat(od) * r2) < OverallDifficultyFromHitWindow(HitWindowGreat(od) * r1)
  {
    StretchOrder(HitWindowGreat(od), r1, r2);
    OverallDifficultyFromHitWindowStrictlyDecreasing(HitWindowGreat(od) * r1, HitWindowGreat(od) * r2);
  }

  /** Locked in Osu mode, a faster clock rate gives a lower OD for a clamped request. */
  lemma LockedOverallDifficultyFallsAsRateRises(od: real, r1: real, r2: real)
    requires 0.0 <= od <= 11.0 && r1 < r2
    ensures LockedOverallDifficulty(Osu, od, r2) < LockedOverallDifficulty(Osu, od, r1)
  {
    StretchedHitWindowOrder(od, r1, r2);
  }

  /** Locked in Osu mode, a faster clock rate always stores a lower OD. */
  lemma ScaledODFallsAsRateRises(od: real, r1: real, r2: real, stats: BeatmapCustomStats)
    requires stats.overallDifficulty.Some? && stats.LocksOverallDifficulty()
    requires r1 < r2
    ensures ScaledOD(Osu, od, r2, stats) < ScaledOD(Osu, od, r1, stats)
  {
    LockedOverallDifficultyFallsAsRateRises(ClampStats(stats.overallDifficulty.value), r1, r2);
  }

  /** Locked OD in Taiko mode is the clamped request, whatever the rate. */
  lemma LockedTaikoODIgnoresRate(od: real, clockRate: real, stats: BeatmapCustomStats)
    requires stats.overallDifficulty.Some? && stats.LocksOverallDifficulty()
    ensures ScaledOD(Taiko, od, clockRate, stats) == ClampStats(stats.overallDifficulty.value)
  {
  }

  /** The rescaled OD is not clamped again. */
  lemma ScaledODLeavesStatRange()
    ensures var stats := BeatmapCustomStats(None, None, Some(0.0), None, None, true, false, false, false);
      ScaledOD(Osu, 5.0, 1.5, stats) == -20.0 / 3.0
  {
  }

  /** OD 8 locked at 1.5x: window 32 ms becomes 48 ms, which is OD 16/3. */
  lemma ScaledODExample()
    ensures var stats := BeatmapCustomStats(None, None, Some(8.0), None, None, true, false, false, false);
      ScaledOD(Osu, 7.0, 1.5, stats) == 16.0 / 3.0
  {
  }

  // ---------------------------------------------------------------------------
  // Circle size and clock rate
  // ---------------------------------------------------------------------------

  /** CS 5 with HR: locked stores 5 / 1.3, unlocked stores 5. */
  lemma CustomCircleSizeExamples(d: Difficulty)
    ensures var stats := BeatmapCustomStats(Some(5.0), None, None, None, None, false, true, false, false);
      CustomCircleSize(d, ModCombination({"HR", "DT"}), stats).circleSize == 50.0 / 13.0
    ensures var stats := BeatmapCustomStats(Some(5.0), None, None, None, None, false, false, false, false);
      CustomCircleSize(d, ModCombination({"HR"}), stats).circleSize == 5.0
    ensures var stats := BeatmapCustomStats(Some(5.0), None, None, None, None, true, false, false, false);
      CustomCircleSize(d, ModCombination({"HR", "EZ"}), stats).circleSize == 50.0 / 13.0
  {
  }

  /** A rate from a BPM target is not clamped: 400 BPM on a 100 BPM map is rate 4. */
  lemma BpmRateLeavesRateRange()
    ensures var stats := BeatmapCustomStats(None, None, None, None, Some(400.0), false, false, false, false);
      ResolveClockRate(1.0, stats, 100.0) == 4.0
  {
  }

  /** When both a rate and a BPM target are given, the BPM target is ignored. */
  lemma ClockRateBeatsBpm(clockRate: real, stats: BeatmapCustomStats, bpmMode: PositiveReal)
    requires stats.clockRate.Some? && stats.bpm.Some?
    ensures ResolveClockRate(clockRate, stats, bpmMode) == ClampRate(stats.clockRate.value)
    ensures ResolveClockRate(clockRate, stats, bpmMode) == ResolveClockRate(clockRate, stats.(bpm := None), bpmMode)
  {
  }

  // ---------------------------------------------------------------------------
  // Composition of the two overrides
  // ---------------------------------------------------------------------------

  /** Resolving the clock rate a second time keeps the rate the first resolution chose. */
  lemma ResolveClockRateIdempotent(clockRate: real, stats: BeatmapCustomStats, bpmMode: PositiveReal)
    ensures ResolveClockRate(ResolveClockRate(clockRate, stats, bpmMode), stats, bpmMode) ==
      ResolveClockRate(clockRate, stats, bpmMode)
  {
  }

  /** Rescaling the AR a second time at the same rate keeps the first result. */
  lemma ScaledARIdempotent(mode: GameMode, ar: real, clockRate: real, stats: BeatmapCustomStats)
    ensures ScaledAR(mode, ScaledAR(mode, ar, clockRate, stats), clockRate, stats) == ScaledAR(mode, ar, clockRate, stats)
  {
  }

  /** Rescaling the OD a second time at the same rate keeps the first result. */
  lemma ScaledODIdempotent(mode: GameMode, od: real, clockRate: real, stats: BeatmapCustomStats)
    ensures ScaledOD(mode, ScaledOD(mode, od, clockRate, stats), clockRate, stats) == ScaledOD(mode, od, clockRate, stats)
  {
  }

  /**
   * Applying the custom stats twice leaves the record as applying them once:
   * the rescaled AR and OD derive from the override, not from the stored
   * value, and the second rate resolution repeats the first.
   */
  lemma CustomStatsIdempotent(d: Difficulty, mode: GameMode, bpmMode: PositiveReal, stats: BeatmapCustomStats)
    ensures CustomStats(CustomStats(d, mode, bpmMode, stats), mode, bpmMode, stats) == CustomStats(d, mode, bpmMode, stats)
  {
    var once := CustomStats(d, mode, bpmMode, stats);
    ResolveClockRateIdempotent(d.clockRate, stats, bpmMode);
    ScaledARIdempotent(mode, d.approachRate, once.clockRate, stats);
    ScaledODIdempotent(mode, d.overallDifficulty, once.clockRate, stats);
  }

  /** Applying the circle-size override twice leaves the record as applying it once. */
  lemma CustomCircleSizeIdempotent(d: Difficulty, mods: ModCombination, stats: BeatmapCustomStats)
    ensures CustomCircleSize(CustomCircleSize(d, mods, stats), mods, stats) == CustomCircleSize(d, mods, stats)
  {
  }

  /** The two overrides touch disjoint fields and read nothing the other writes: their order does not matter. */
  lemma OverridesCommute(d: Difficulty, mode: GameMode, bpmMode: PositiveReal, mods: ModCombination, stats: BeatmapCustomStats)
    ensures CustomCircleSize(CustomStats(d, mode, bpmMode, stats), mods, stats) ==
      CustomStats(CustomCircleSize(d, mods, stats), mode, bpmMode, stats)
  {
  }

  /** With nothing overridden the custom stats leave the record as it is. */
  lemma NoOverridesNoChange(d: Difficulty, mode: GameMode, bpmMode: PositiveReal, locks: BeatmapCustomStats)
    requires locks.approachRate.None? && locks.overallDifficulty.None?
    requires locks.clockRate.None? && locks.bpm.None?
    ensures CustomStats(d, mode, bpmMode, locks) == d
  {
  }
}
