/**
 * The pure part of the mood pipeline in src/script.js: the intensity score
 * computed from the three interaction counters, the three-bucket mode
 * classification of a score, and the record built at the end of a cycle.
 */
module Classifier {

  /** The three moods a cycle can be classified into. */
  datatype Mode = Calm | Balanced | Aggressive

  /** Lower threshold: scores below it are Calm. */
  const CalmLimit: nat := 20
  /** Upper threshold: scores at or above it are Aggressive. */
  const AggressiveFrom: nat := 60

  /** The text src/script.js uses for a mode, and the `mode` column receives. */
  function ModeName(m: Mode): (name: string)
    ensures name in ModeNames()
  {
    match m
    case Calm => "Calm"
    case Balanced => "Balanced"
    case Aggressive => "Aggressive"
  }

  /** The three mode texts, the only values of the `mode` column the pipeline writes. */
  function ModeNames(): set<string>
  {
    {"Calm", "Balanced", "Aggressive"}
  }

  /** Order of intensity: Calm < Balanced < Aggressive. */
  function Rank(m: Mode): (r: nat)
    ensures r <= 2
  {
    match m
    case Calm => 0
    case Balanced => 1
    case Aggressive => 2
  }

  /**
   * The weighted intensity score of one window: clicks count twice,
   * keystrokes once and focus changes three times.
   */
  function IntensityScore(clicks: nat, keys: nat, focus: nat): (score: nat)
    ensures clicks + keys + focus <= score <= 3 * (clicks + keys + focus)
    ensures score == 0 <==> clicks == 0 && keys == 0 && focus == 0
  {
    // ScoreWeights gives the `* 2 + * 1 + * 3` form; the sum is spelled out by
    // addition so that the solver does not loop on products of literals.
    clicks + clicks + keys + focus + focus + focus
  }

  /** Classifies a score by the thresholds 20 and 60. */
  function CalculateMode(score: int): (m: Mode)
    ensures m == Calm <==> score < CalmLimit
    ensures m == Balanced <==> CalmLimit <= score < AggressiveFrom
    ensures m == Aggressive <==> AggressiveFrom <= score
  {
    if score < 20 then Calm
    else if score < 60 then Balanced
    else Aggressive
  }

  /** The record a cycle produces, before the store renames its fields. */
  datatype InteractionRecord = InteractionRecord(
    timestamp: string,
    clickCount: nat,
    keyCount: nat,
    focusCount: nat,
    score: nat,
    mode: Mode)

  /**
   * Builds the record for a cycle from the current counters and the score and
   * mode computed from them; `now` stands for the ISO-8601 creation instant.
   */
  function BuildInteractionRecord(now: string, clicks: nat, keys: nat, focus: nat, score: nat, mode: Mode): (rec: InteractionRecord)
    ensures rec.timestamp == now
    ensures rec.clickCount == clicks && rec.keyCount == keys && rec.focusCount == focus
    ensures rec.score == score && rec.mode == mode
  {
    InteractionRecord(now, clicks, keys, focus, score, mode)
  }

  /**
   * A record is consistent when its score is the intensity of its counters
   * and its mode the classification of that score.
   */
  predicate Consistent(rec: InteractionRecord)
  {
    rec.score == IntensityScore(rec.clickCount, rec.keyCount, rec.focusCount) &&
    rec.mode == CalculateMode(rec.score)
  }

  /** Every record built from the counters with the pipeline's score and mode is consistent. */
  lemma BuiltRecordIsConsistent(now: string, clicks: nat, keys: nat, focus: nat)
    ensures var score := IntensityScore(clicks, keys, focus);
            Consistent(BuildInteractionRecord(now, clicks, keys, focus, score, CalculateMode(score)))
  {
  }

  /** Each counter contributes with its own fixed weight, and nothing else does. */
  lemma ScoreWeights(clicks: nat, keys: nat, focus: nat)
    ensures IntensityScore(clicks, keys, focus) == clicks * 2 + keys * 1 + focus * 3
    ensures IntensityScore(clicks + 1, keys, focus) == IntensityScore(clicks, keys, focus) + 2
    ensures IntensityScore(clicks, keys + 1, focus) == IntensityScore(clicks, keys, focus) + 1
    ensures IntensityScore(clicks, keys, focus + 1) == IntensityScore(clicks, keys, focus) + 3
    ensures IntensityScore(clicks, keys, focus) ==
            IntensityScore(clicks, 0, 0) + IntensityScore(0, keys, 0) + IntensityScore(0, 0, focus)
  {
  }

  /** The boundary scores fall on the documented sides of the thresholds. */
  lemma ModeBoundaries()
    ensures CalculateMode(0) == Calm && CalculateMode(19) == Calm
    ensures CalculateMode(20) == Balanced && CalculateMode(59) == Balanced
    ensures CalculateMode(60) == Aggressive
  {
  }

  /** A higher score never yields a calmer mode. */
  lemma ModeMonotone(s1: int, s2: int)
    requires s1 <= s2
    ensures Rank(CalculateMode(s1)) <= Rank(CalculateMode(s2))
  {
  }

  /** Distinct modes have distinct names, so a stored name identifies its mode. */
  lemma ModeNameInjective(m1: Mode, m2: Mode)
    requires ModeName(m1) == ModeName(m2)
    ensures m1 == m2
  {
  }
}
