/**
 * The beatmap-side types the stat-override engine works on: the game mode,
 * the mod combination, the custom difficulty stats a caller asks for, and the
 * beatmap whose difficulty record the engine rewrites in place.
 */
module Beatmaps {
  import opened Wrappers

  /** The four rulesets; only Osu, Taiko and Fruits are told apart by the engine. */
  datatype GameMode = Osu | Taiko | Fruits | Mania

  /** Base BPM of a beatmap: a given positive number. */
  type PositiveReal = r: real | r > 0.0 witness 1.0

  /** A mod combination, queried only by acronym membership ("HR", "EZ", ...). */
  datatype ModCombination = ModCombination(acronyms: set<string>) {
    predicate Has(acronym: string) {
      acronym in acronyms
    }
  }

  /**
   * Custom difficulty stats. A numeric field that is `None` means "leave that
   * attribute alone"; an absent lock flag reads as `false`.
   */
  datatype BeatmapCustomStats = BeatmapCustomStats(
    circleSize: Option<real>,
    approachRate: Option<real>,
    overallDifficulty: Option<real>,
    clockRate: Option<real>,
    bpm: Option<real>,
    lockStats: bool,
    lockCircleSize: bool,
    lockApproachRate: bool,
    lockOverallDifficulty: bool)
  {
    predicate LocksCircleSize() { lockStats || lockCircleSize }
    predicate LocksApproachRate() { lockStats || lockApproachRate }
    predicate LocksOverallDifficulty() { lockStats || lockOverallDifficulty }
  }

  /** A snapshot of a beatmap's difficulty record. */
  datatype Difficulty = Difficulty(
    circleSize: real,
    approachRate: real,
    overallDifficulty: real,
    clockRate: real)

  /** The mutable difficulty record of a beatmap. */
  class BeatmapDifficulty {
    var circleSize: real
    var approachRate: real
    var overallDifficulty: real
    var clockRate: real

    constructor (d: Difficulty)
      ensures Values() == d
    {
      circleSize := d.circleSize;
      approachRate := d.approachRate;
      overallDifficulty := d.overallDifficulty;
      clockRate := d.clockRate;
    }

    /** The current contents of the record as a value. */
    function Values(): Difficulty
      reads this
    {
      Difficulty(circleSize, approachRate, overallDifficulty, clockRate)
    }
  }

  /** A beatmap: a read-only mode and base BPM, and a difficulty record. */
  class Beatmap {
    const mode: GameMode
    const bpmMode: PositiveReal
    const difficulty: BeatmapDifficulty

    constructor (mode: GameMode, bpmMode: PositiveReal, difficulty: BeatmapDifficulty)
      ensures this.mode == mode && this.bpmMode == bpmMode && this.difficulty == difficulty
    {
      this.mode := mode;
      this.bpmMode := bpmMode;
      this.difficulty := difficulty;
    }
  }
}
