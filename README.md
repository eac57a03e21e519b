# Stat-override engine of osu-pp-calculator-browser, in Dafny

This project models `src/Core/Utils/Stats.ts`, the part of the calculator
that rewrites a beatmap's difficulty record (circle size, approach rate,
overall difficulty, clock rate) from a set of custom stats. The custom stats
can be "locked", meaning that the requested value is the one the player
should experience after mods and rate changes. The engine then compensates:

- a locked circle size is divided by the HR (1.3) or EZ (0.5) factor;
- a locked AR (Osu and Fruits modes) or OD (Osu mode) is found by inverting
  the preempt-time or "great" hit-window formula at the current clock rate.

Modules:

- `Wrappers` (`wrappers.dfy`): `Option`, for the optional fields.
- `Beatmaps` (`beatmap.dfy`): `GameMode`, `ModCombination` (membership by
  acronym), `BeatmapCustomStats`, and the classes `BeatmapDifficulty` (the
  mutable record, with a `Values()` snapshot) and `Beatmap` (read-only
  `mode` and `bpmMode`, and its difficulty record).
- `Stats` (`stats.dfy`): the engine. The clamps, the timing formulas with
  their inverses, and `ScaledAR` / `ScaledOD` are functions. The mode switch
  of a locked AR or OD is its own function (`LockedApproachRate`,
  `LockedOverallDifficulty`), applied to the clamped request. The two
  exported operations `ApplyCustomCircleSize` and `ApplyCustomStats` are
  methods that assign the record's fields in place, in the source's order.
  Each is specified by a function of the old record (`CustomCircleSize`,
  `CustomStats`).
- `StatsProperties` (`stats_properties.dfy`): lemmas. They cover the
  round trips between the formulas and their inverses, the identity at
  clock rate 1, the breakpoints, the effective-value meaning of the locked
  rescaling, monotonicity in the clock rate, idempotence, and the commutation
  of the two overrides.

All arithmetic is over `real`. `MathUtils.clamp` is `Stats.Clamp`.

Behaviour worth knowing, all proved:

- The rate derived from a BPM target is not clamped to [0.25, 3.0]: 400 BPM
  on a 100 BPM map gives rate 4 (`BpmRateLeavesRateRange`). So the clock
  rate is not always inside [0.25, 3.0] after an adjustment.
- The locked AR and OD are not clamped again and can leave [0, 11]
  (`ScaledARLeavesStatRange`, `ScaledODLeavesStatRange`).
- AR 9 locked at rate 1.5 stores AR 7. Its preempt is 1200 - 4·150 = 600 ms,
  stretched to 900 ms (`ScaledARExample`). The 150 ms slope applies above
  AR 5; the 120 ms slope of AR 5 and below would wrongly give 5.8.
- Applying the custom stats twice gives the same record as applying them
  once (`CustomStatsIdempotent`). AR and OD are computed from the override,
  not from the stored value, and the second rate resolution repeats the
  first, so the scaling does not compound.
- The two branches of the OD inverse are the same line, (80 - hw) / 6, so
  the split at 50 ms has no effect (`HitWindowBranchesCoincide`).

## Model

| member | source | states |
|---|---|---|
| `Stats.Clamp` | src/Core/Utils/Stats.ts:14 | for `lo <= hi`: result in [lo, hi]; unchanged inside the range; `lo` below it and `hi` above it |
| `Stats.ClampStats` | src/Core/Utils/Stats.ts:5-15 | result in [0, 11]; unchanged inside the range; 0 below it and 11 above it |
| `Stats.ClampRate` | src/Core/Utils/Stats.ts:17-25 | result in [0.25, 3.0]; unchanged inside the range; the nearer bound outside it |
| `Stats.ClampBpm` | src/Core/Utils/Stats.ts:27-35 | result in [60, 10000]; unchanged inside the range; the nearer bound outside it |
| `StatsProperties.ClampsIdempotent` | src/Core/Utils/Stats.ts:5-35 | clamping twice equals clamping once, for all three clamps |
| `Stats.CircleSizeDenominator` | src/Core/Utils/Stats.ts:53 | the factor is 1.3 with HR (also when EZ is present too), 0.5 with EZ alone, otherwise 1 |
| `Stats.CustomCircleSize` | src/Core/Utils/Stats.ts:48-58 | no override: nothing changes; otherwise only circle size changes and lands in [0, 11]; unlocked it is `clampStats(cs)` whatever the mods; locked it is `clampStats(cs / d)`; when `cs / d` is in range, multiplying the stored value by the mod factor gives back the requested size |
| `Stats.ApplyCustomCircleSize` | src/Core/Utils/Stats.ts:43-59 | the record after the call is `CustomCircleSize` of the record before it |
| `StatsProperties.CustomCircleSizeExamples` | src/Core/Utils/Stats.ts:53-58 | CS 5 with HR: locked (per-stat lock or global lock, with or without EZ) stores 5/1.3; unlocked stores 5 |
| `StatsProperties.CustomCircleSizeIdempotent` | src/Core/Utils/Stats.ts:48-58 | applying the circle-size override twice equals applying it once |
| `Stats.ResolveClockRate` | src/Core/Utils/Stats.ts:67-75 | a direct rate wins and is clamped to [0.25, 3]; otherwise a BPM target gives a rate that, times the base BPM, is the clamped BPM, and that rate lies in [60/bpmMode, 10000/bpmMode]; with neither, the rate is unchanged |
| `StatsProperties.ClockRateBeatsBpm` | src/Core/Utils/Stats.ts:69-75 | with both a rate and a BPM target, the result is the clamped rate and is the same as with no BPM target |
| `StatsProperties.BpmRateLeavesRateRange` | src/Core/Utils/Stats.ts:72-74 | a BPM-derived rate is not clamped: 400 BPM on a 100 BPM map is rate 4 |
| `StatsProperties.ResolveClockRateIdempotent` | src/Core/Utils/Stats.ts:69-75 | resolving the rate again from the resolved rate gives the same rate |
| `Stats.PreemptMs` | src/Core/Utils/Stats.ts:102-104 | for AR in [0, 11] the preempt time is in [300, 1800] ms; it is at most 1200 ms exactly when AR is at least 5 |
| `Stats.PreemptSlow` | src/Core/Utils/Stats.ts:103 | for AR in [0, 5] the preempt time is in [1200, 1800] ms |
| `Stats.PreemptFast` | src/Core/Utils/Stats.ts:104 | for AR in [5, 11] the preempt time is in [300, 1200] ms |
| `Stats.ArFromShortPreempt` | src/Core/Utils/Stats.ts:109 | a preempt time in [300, 1200] ms gives an AR in [5, 11] |
| `Stats.ArFromLongPreempt` | src/Core/Utils/Stats.ts:110 | a preempt time in [1200, 1800] ms gives an AR in [0, 5] |
| `Stats.ApproachRateFromPreempt` | src/Core/Utils/Stats.ts:108-110 | the AR is at least 5 exactly when the preempt time is at most 1200 ms; a preempt time in [300, 1800] ms gives an AR in [0, 11] |
| `StatsProperties.PreemptMsOrder` | src/Core/Utils/Stats.ts:102-104 | preempt time is strictly decreasing in AR (both directions of the iff) |
| `StatsProperties.PreemptMsOfApproachRateFromPreempt` | src/Core/Utils/Stats.ts:102-110 | the AR computed from any preempt time has exactly that preempt time |
| `StatsProperties.ApproachRateFromPreemptMs` | src/Core/Utils/Stats.ts:102-110 | inverting the preempt time of any AR gives back that AR |
| `StatsProperties.PreemptBranchesMeet` | src/Core/Utils/Stats.ts:102-110 | both preempt branches give 1200 ms at AR 5, and both inverse branches give AR 5 at 1200 ms |
| `StatsProperties.ApproachRateFromPreemptStrictlyDecreasing` | src/Core/Utils/Stats.ts:108-110 | a longer preempt time gives a strictly lower AR |
| `Stats.HitWindowGreat` | src/Core/Utils/Stats.ts:139 | for OD in [0, 11] the "great" window is in [14, 80] ms |
| `Stats.OdFromNarrowWindow` | src/Core/Utils/Stats.ts:143 | a window in [14, 50] ms gives an OD in [5, 11] |
| `Stats.OdFromWideWindow` | src/Core/Utils/Stats.ts:144 | a window in [50, 80] ms gives an OD in [0, 5] |
| `Stats.OverallDifficultyFromHitWindow` | src/Core/Utils/Stats.ts:142-144 | the OD is at least 5 exactly when the window is at most 50 ms; a window in [14, 80] ms gives an OD in [0, 11] |
| `StatsProperties.HitWindowGreatOfOverallDifficultyFromHitWindow` | src/Core/Utils/Stats.ts:139-144 | the OD computed from any window has exactly that window |
| `StatsProperties.OverallDifficultyFromHitWindowGreat` | src/Core/Utils/Stats.ts:139-144 | inverting the window of any OD gives back that OD |
| `StatsProperties.OverallDifficultyFromHitWindowStrictlyDecreasing` | src/Core/Utils/Stats.ts:142-144 | a wider window gives a strictly lower OD |
| `StatsProperties.HitWindowBranchesCoincide` | src/Core/Utils/Stats.ts:139-144 | both inverse branches equal (80 - hw)/6 everywhere, so they meet at 50 ms; OD 5 has window 50 and window 50 gives OD 5 |
| `Stats.ScaledAR` | src/Core/Utils/Stats.ts:87-115 | no override: the current AR; unlocked: `clampStats(override)` whatever the mode and rate; locked outside Osu/Fruits: `clampStats(override)` |
| `StatsProperties.UnlockedARBypassesScaling` | src/Core/Utils/Stats.ts:92-94 | unlocked, the result is the same for every mode and every clock rate |
| `StatsProperties.ScaledARAtUnitRate` | src/Core/Utils/Stats.ts:96-114 | at clock rate 1, the result is exactly `clampStats(override)` in every mode, locked or not |
| `Stats.LockedApproachRate` | src/Core/Utils/Stats.ts:99-114 | outside Osu and Fruits the clamped request is stored as it is |
| `StatsProperties.LockedApproachRateStretchesPreempt` | src/Core/Utils/Stats.ts:99-110 | in Osu/Fruits, the locked AR's preempt time is the given AR's preempt times the clock rate |
| `StatsProperties.ScaledARStretchesPreempt` | src/Core/Utils/Stats.ts:96-110 | locked in Osu/Fruits, the stored AR's preempt time equals the requested AR's preempt times the clock rate |
| `StatsProperties.ScaledAREffectivePreempt` | src/Core/Utils/Stats.ts:96-110 | at a positive rate, the stored AR's preempt divided by the rate (what the player sees) is the requested AR's preempt |
| `StatsProperties.StretchedPreemptOrder` | src/Core/Utils/Stats.ts:102-110 | for an AR in [0, 11], stretching its preempt by a larger rate gives a strictly lower AR |
| `StatsProperties.LockedApproachRateFallsAsRateRises` | src/Core/Utils/Stats.ts:99-110 | in Osu/Fruits, for an AR in [0, 11], a faster clock rate gives a strictly lower locked AR |
| `StatsProperties.ScaledARFallsAsRateRises` | src/Core/Utils/Stats.ts:96-110 | locked in Osu/Fruits, a faster clock rate stores a strictly lower AR |
| `StatsProperties.ScaledARLeavesStatRange` | src/Core/Utils/Stats.ts:106-110 | the locked result is not re-clamped: AR 0 at rate 1.5 stores -7.5, AR 11 at rate 0.25 stores 12.5 |
| `StatsProperties.ScaledARExample` | src/Core/Utils/Stats.ts:99-110 | AR 9 locked in Osu mode at rate 1.5 stores AR 7 |
| `StatsProperties.ScaledARIdempotent` | src/Core/Utils/Stats.ts:88-114 | scaling again at the same rate from the scaled AR gives the same AR |
| `Stats.ScaledOD` | src/Core/Utils/Stats.ts:123-153 | no override: the current OD; unlocked: `clampStats(override)` whatever the mode and rate; locked in any mode but Osu: `clampStats(override)` |
| `StatsProperties.UnlockedODBypassesScaling` | src/Core/Utils/Stats.ts:128-130 | unlocked, the result is the same for every mode and every clock rate |
| `StatsProperties.ScaledODAtUnitRate` | src/Core/Utils/Stats.ts:132-152 | at clock rate 1, the result is exactly `clampStats(override)` in every mode, locked or not |
| `Stats.LockedOverallDifficulty` | src/Core/Utils/Stats.ts:135-152 | in every mode but Osu the clamped request is stored as it is |
| `StatsProperties.LockedOverallDifficultyStretchesHitWindow` | src/Core/Utils/Stats.ts:136-144 | in Osu, the locked OD's window is the given OD's window times the clock rate |
| `StatsProperties.ScaledODStretchesHitWindow` | src/Core/Utils/Stats.ts:139-144 | locked in Osu, the stored OD's window equals the requested OD's window times the clock rate |
| `StatsProperties.ScaledODEffectiveHitWindow` | src/Core/Utils/Stats.ts:139-144 | at a positive rate, the stored OD's window divided by the rate is the requested OD's window |
| `StatsProperties.StretchedHitWindowOrder` | src/Core/Utils/Stats.ts:139-144 | for an OD in [0, 11], stretching its window by a larger rate gives a strictly lower OD |
| `StatsProperties.LockedOverallDifficultyFallsAsRateRises` | src/Core/Utils/Stats.ts:136-144 | in Osu, for an OD in [0, 11], a faster clock rate gives a strictly lower locked OD |
| `StatsProperties.ScaledODFallsAsRateRises` | src/Core/Utils/Stats.ts:139-144 | locked in Osu, a faster clock rate stores a strictly lower OD |
| `StatsProperties.LockedTaikoODIgnoresRate` | src/Core/Utils/Stats.ts:147-149 | locked in Taiko, the result is `clampStats(override)` whatever the rate |
| `StatsProperties.ScaledODLeavesStatRange` | src/Core/Utils/Stats.ts:140-144 | the locked result is not re-clamped: OD 0 at rate 1.5 stores -20/3 |
| `StatsProperties.ScaledODExample` | src/Core/Utils/Stats.ts:139-144 | OD 8 locked in Osu mode at rate 1.5 stores OD 16/3 |
| `StatsProperties.ScaledODIdempotent` | src/Core/Utils/Stats.ts:124-152 | scaling again at the same rate from the scaled OD gives the same OD |
| `Stats.CustomStats` | src/Core/Utils/Stats.ts:66-79 | circle size is untouched; the rate is resolved first, and AR and OD are scaled at the NEW rate |
| `Stats.ApplyCustomStats` | src/Core/Utils/Stats.ts:66-79 | the record after the call is `CustomStats` of the record before it, with the beatmap's own mode and base BPM |
| `StatsProperties.CustomStatsIdempotent` | src/Core/Utils/Stats.ts:66-79 | applying the custom stats twice gives the same record as applying them once |
| `StatsProperties.OverridesCommute` | src/Core/Utils/Stats.ts:43-79 | applying the circle-size override before or after the other overrides gives the same record |
| `StatsProperties.NoOverridesNoChange` | src/Core/Utils/Stats.ts:66-79 | with no rate, BPM, AR or OD override, the record is unchanged, whatever the circle-size override and the lock flags |

## Left out

- `src/Core/Parsing.ts` (`parseBeatmap`, `parseScore` and their helpers) is not part of this model. It reads buffers, computes MD5 with a foreign package, and calls the foreign beatmap and score decoders; its checksum and "no buffer" errors only pass results between those calls.
- `src/Core/Interfaces/IScoreParsingOptions.ts` and `src/Core/Interfaces/IBeatmapParsingOptions.ts` declare types only.
- IEEE double arithmetic is not modelled: no rounding, no NaN (which passes `typeof x === 'number'`), and no infinities. The identities at rate 1 and at the breakpoints hold over the reals.
- `bpmMode` is taken as a given positive real. How the library derives it is not modelled, and neither is the division by 0 that JavaScript would turn into Infinity.
- Stats.ScaledAR: its own contract leaves out the locked, rescaled case. That case is stated by the lemmas `ScaledARStretchesPreempt` and `ScaledARFallsAsRateRises`, because the nonlinear relation in the function's contract makes every proof that uses the function too costly.
- Stats.ScaledOD: the same holds; the locked Osu case is stated by the lemmas `ScaledODStretchesHitWindow` and `ScaledODFallsAsRateRises`.
- Stats.LockedApproachRate: its own contract covers only the modes that do not rescale, for the same reason; the rescaled case is stated by `LockedApproachRateStretchesPreempt`.
- Stats.LockedOverallDifficulty: the same holds; the Osu case is stated by `LockedOverallDifficultyStretchesHitWindow`.
- `IBeatmapCustomStats` is not part of the source shown. Its fields are read off how `Stats.ts` uses them. The optional lock flags are `bool`, with an absent flag read as `false` (JavaScript treats `undefined` as falsy).
- `ModCombination` is reduced to membership by acronym. `IBeatmap` is reduced to its difficulty record, `mode` and `bpmMode`. The numeric values of `GameMode` are not modelled.
- How gameplay later applies the mod factor to circle size, or the clock rate to preempt and hit windows, is outside the source. It appears only as the meaning given in the compensation lemmas.
