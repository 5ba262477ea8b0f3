/**
 * The report generator of src/aiConfig.js: the local ("simulated") report
 * statistics and branch choice, and the dispatch between the local report and
 * the two remote text-generation services with their fallbacks. The remote
 * call itself is an abstract outcome; the report text is not modelled.
 */
module Reports {
  import opened Wrappers
  import opened Classifier
  import opened RecordStore

  /** Fewest records the local report needs. */
  const MinRecords: nat := 5

  /** The recommendation branch of the local report. */
  datatype Analysis = HighActivity | LowActivity | Optimal

  /** The `stats` object of the local report. */
  datatype Stats = Stats(
    calmCount: nat,
    balancedCount: nat,
    aggressiveCount: nat,
    avgScore: int,
    totalInteractions: int)

  /** Which remote service produced a report. */
  datatype Source = OpenAI | HuggingFace

  /**
   * The `summary` sent to a remote service and returned as its stats.
   * `avgScore` is the unrounded mean, None where src/aiConfig.js divides 0 by 0;
   * `totalInteractions` is only computed on the OpenAI path.
   */
  datatype RemoteSummary = RemoteSummary(
    totalCycles: nat,
    calm: nat,
    balanced: nat,
    aggressive: nat,
    avgScore: Option<real>,
    totalInteractions: Option<int>)

  datatype Report =
    | LocalReport(timestamp: string, stats: Stats, analysis: Analysis)
    | RemoteReport(timestamp: string, content: string, summary: RemoteSummary, source: Source)

  /** What a remote call came to: generated text, or any failure (network, status, malformed reply). */
  datatype RemoteOutcome = Replied(content: string) | Failed

  /** The fields of `AI_CONFIG` that select the path. */
  datatype AIConfig = AIConfig(mode: string, openaiApiKey: string, huggingfaceApiKey: string)

  /** The `mode` column of each record, in order. */
  function Modes(records: seq<StoredRecord>): (ms: seq<string>)
    ensures |ms| == |records|
  {
    if records == [] then [] else [records[0].mode] + Modes(records[1..])
  }

  /** Number of records whose mode is exactly `name`. */
  function CountMode(records: seq<StoredRecord>, name: string): (n: nat)
    ensures n <= |records|
  {
    if records == [] then 0
    else (if records[0].mode == name then 1 else 0) + CountMode(records[1..], name)
  }

  /** Sum of the `score` column. */
  function ScoreSum(records: seq<StoredRecord>): (sum: int)
    ensures (forall i :: 0 <= i < |records| ==> records[i].score >= 0) ==> sum >= 0
    ensures (forall i :: 0 <= i < |records| ==> records[i].score == 0) ==> sum == 0
  {
    if records == [] then 0 else records[0].score + ScoreSum(records[1..])
  }

  /** Sum over records of clicks, keys and focus changes. */
  function TotalInteractions(records: seq<StoredRecord>): (total: int)
    ensures (forall i :: 0 <= i < |records| ==>
               records[i].click_count >= 0 && records[i].key_count >= 0 && records[i].focus_count >= 0) ==> total >= 0
  {
    if records == [] then 0
    else records[0].click_count + records[0].key_count + records[0].focus_count + TotalInteractions(records[1..])
  }

  /**
   * `Math.round(sum / n)`: the integer nearest to the mean, halves rounded up.
   */
  function RoundedMean(sum: int, n: nat): (r: int)
    requires n > 0
    ensures 2 * n * r - n <= 2 * sum < 2 * n * r + n
  {
    var q := (2 * sum + n) / (2 * n);
    assert 2 * sum + n == 2 * n * q + (2 * sum + n) % (2 * n);
    q
  }

  /** Branch choice: Aggressive or Calm must hold a strict plurality; anything else is optimal. */
  function ChooseAnalysis(calm: nat, balanced: nat, aggressive: nat): (a: Analysis)
    ensures a == HighActivity <==> aggressive > balanced && aggressive > calm
    ensures a == LowActivity <==> calm > balanced && calm > aggressive
    ensures a == Optimal <==> (balanced >= aggressive || calm >= aggressive) && (balanced >= calm || aggressive >= calm)
  {
    if aggressive > balanced && aggressive > calm then HighActivity
    else if calm > balanced && calm > aggressive then LowActivity
    else Optimal
  }

  /** The statistics of the local report over a non-empty record list. */
  function LocalStats(records: seq<StoredRecord>): (s: Stats)
    requires records != []
    ensures s.calmCount == CountMode(records, "Calm") && s.balancedCount == CountMode(records, "Balanced") &&
            s.aggressiveCount == CountMode(records, "Aggressive")
    ensures s.totalInteractions == TotalInteractions(records)
    ensures s.calmCount + s.balancedCount + s.aggressiveCount <= |records|
    ensures 2 * |records| * s.avgScore - |records| <= 2 * ScoreSum(records) < 2 * |records| * s.avgScore + |records|
  {
    ModeCountsBound(records);
    Stats(CountMode(records, "Calm"), CountMode(records, "Balanced"), CountMode(records, "Aggressive"),
          RoundedMean(ScoreSum(records), |records|), TotalInteractions(records))
  }

  /**
   * The local report: nothing for an absent list or fewer than five records,
   * otherwise the statistics and the branch they select.
   */
  function SimulatedReport(records: Option<seq<StoredRecord>>, now: string): (r: Option<Report>)
    ensures r.None? <==> records.None? || |records.value| < MinRecords
    ensures r.Some? ==> r.value.LocalReport? && r.value.stats == LocalStats(records.value)
    ensures r.Some? ==> (r.value.LocalReport? && r.value.timestamp == now &&
      r.value.analysis == ChooseAnalysis(r.value.stats.calmCount, r.value.stats.balancedCount, r.value.stats.aggressiveCount))
  {
    if records.None? || |records.value| < MinRecords then None
    else
      var stats := LocalStats(records.value);
      Some(LocalReport(now, stats, ChooseAnalysis(stats.calmCount, stats.balancedCount, stats.aggressiveCount)))
  }

  /** The mean score as the remote summary holds it: NaN (None) for an empty list. */
  function MeanScore(records: seq<StoredRecord>): (m: Option<real>)
    ensures m.None? <==> records == []
    ensures m.Some? ==> m.value * |records| as real == ScoreSum(records) as real
  {
    if records == [] then None else Some(ScoreSum(records) as real / |records| as real)
  }

  /** The summary built on the OpenAI path. */
  function OpenAISummary(records: seq<StoredRecord>): (s: RemoteSummary)
    ensures s.totalCycles == |records|
    ensures s.calm + s.balanced + s.aggressive <= s.totalCycles
    ensures s.avgScore.None? <==> records == []
    ensures s.totalInteractions == Some(TotalInteractions(records))
    ensures s.calm == CountMode(records, "Calm") && s.balanced == CountMode(records, "Balanced") &&
            s.aggressive == CountMode(records, "Aggressive")
    ensures s.avgScore == MeanScore(records)
  {
    ModeCountsBound(records);
    RemoteSummary(|records|, CountMode(records, "Calm"), CountMode(records, "Balanced"),
                  CountMode(records, "Aggressive"), MeanScore(records), Some(TotalInteractions(records)))
  }

  /** The summary built on the HuggingFace path: the OpenAI summary without the interaction total. */
  function HuggingFaceSummary(records: seq<StoredRecord>): (s: RemoteSummary)
    ensures s == OpenAISummary(records).(totalInteractions := None)
    ensures s.totalCycles == |records| && s.calm + s.balanced + s.aggressive <= s.totalCycles
  {
    ModeCountsBound(records);
    RemoteSummary(|records|, CountMode(records, "Calm"), CountMode(records, "Balanced"),
                  CountMode(records, "Aggressive"), MeanScore(records), None)
  }

  /**
   * A remote path: an empty key falls back to the local report; an absent list
   * makes building the summary throw, which the path catches and falls back;
   * otherwise the call's failure falls back and its reply becomes the report.
   */
  function RemoteReportOrFallback(key: string, source: Source, records: Option<seq<StoredRecord>>,
                                  now: string, outcome: RemoteOutcome): (r: Option<Report>)
    ensures key == "" || records.None? || outcome.Failed? ==> r == SimulatedReport(records, now)
    ensures key != "" && records.Some? && outcome.Replied? ==>
      r == Some(RemoteReport(now, outcome.content,
                             if source == OpenAI then OpenAISummary(records.value) else HuggingFaceSummary(records.value),
                             source))
    ensures r.Some? && r.value.RemoteReport? ==>
      key != "" && records.Some? && outcome == Replied(r.value.content) && r.value.source == source &&
      r.value.summary.totalCycles == |records.value|
  {
    if key == "" || records.None? then SimulatedReport(records, now)
    else match outcome
      case Failed => SimulatedReport(records, now)
      case Replied(content) =>
        var summary := if source == OpenAI then OpenAISummary(records.value) else HuggingFaceSummary(records.value);
        Some(RemoteReport(now, content, summary, source))
  }

  /** `generateAIReport`: dispatch on the configured mode; unknown modes use the local report. */
  function GenerateAIReport(config: AIConfig, records: Option<seq<StoredRecord>>, now: string,
                            outcome: RemoteOutcome): (r: Option<Report>)
    ensures config.mode != "openai" && config.mode != "huggingface" ==> r == SimulatedReport(records, now)
    ensures outcome.Failed? ==> r == SimulatedReport(records, now)
    ensures config.mode == "openai" ==> r == RemoteReportOrFallback(config.openaiApiKey, OpenAI, records, now, outcome)
    ensures config.mode == "huggingface" ==>
              r == RemoteReportOrFallback(config.huggingfaceApiKey, HuggingFace, records, now, outcome)
  {
    if config.mode == "simulated" then SimulatedReport(records, now)
    else if config.mode == "openai" then RemoteReportOrFallback(config.openaiApiKey, OpenAI, records, now, outcome)
    else if config.mode == "huggingface" then RemoteReportOrFallback(config.huggingfaceApiKey, HuggingFace, records, now, outcome)
    else SimulatedReport(records, now)
  }

  /** The mode counts are the multiplicities of the mode names among the records. */
  lemma {:induction false} CountModeIsMultiplicity(records: seq<StoredRecord>, name: string)
    ensures CountMode(records, name) == multiset(Modes(records))[name]
  {
    if records != [] {
      CountModeIsMultiplicity(records[1..], name);
      assert Modes(records) == [records[0].mode] + Modes(records[1..]);
    }
  }

  /**
   * The three counts never exceed the number of records, and add up to it
   * exactly when every mode is one of the three names.
   */
  lemma {:induction false} ModeCountsBound(records: seq<StoredRecord>)
    ensures CountMode(records, "Calm") + CountMode(records, "Balanced") + CountMode(records, "Aggressive") <= |records|
    ensures (forall i :: 0 <= i < |records| ==> records[i].mode in ModeNames()) <==>
            CountMode(records, "Calm") + CountMode(records, "Balanced") + CountMode(records, "Aggressive") == |records|
  {
    if records != [] {
      var rest := records[1..];
      ModeCountsBound(rest);
      if forall i :: 0 <= i < |rest| ==> rest[i].mode in ModeNames() {
        forall i | 0 <= i < |records| && records[0].mode in ModeNames()
          ensures records[i].mode in ModeNames()
        {
          if i > 0 { assert records[i] == rest[i - 1]; }
        }
      } else {
        var i :| 0 <= i < |rest| && rest[i].mode !in ModeNames();
        assert records[i + 1] == rest[i];
      }
    }
  }

  /** Totals over a concatenation are the sums of the totals of the parts. */
  lemma {:induction false} TotalInteractionsAppend(a: seq<StoredRecord>, b: seq<StoredRecord>)
    ensures TotalInteractions(a + b) == TotalInteractions(a) + TotalInteractions(b)
    ensures ScoreSum(a + b) == ScoreSum(a) + ScoreSum(b)
  {
    if a != [] {
      TotalInteractionsAppend(a[1..], b);
      assert (a + b)[1..] == a[1..] + b;
    } else {
      assert a + b == b;
    }
  }

  /**
   * Over records the pipeline stored, every interaction weighs at least one
   * point, so the interaction total never exceeds the score total.
   */
  lemma {:induction false} InteractionsBoundedByScores(recs: seq<InteractionRecord>, records: seq<StoredRecord>)
    requires |recs| == |records|
    requires forall i :: 0 <= i < |recs| ==> Consistent(recs[i]) && records[i] == ToStored(recs[i])
    ensures 0 <= TotalInteractions(records) <= ScoreSum(records)
  {
    if recs != [] {
      InteractionsBoundedByScores(recs[1..], records[1..]);
      assert Consistent(recs[0]);
    }
  }

  /** Records the pipeline stored always carry one of the three names, so their counts add up. */
  lemma StoredModeCountsAddUp(recs: seq<InteractionRecord>)
    ensures var records := seq(|recs|, i requires 0 <= i < |recs| => ToStored(recs[i]));
      CountMode(records, "Calm") + CountMode(records, "Balanced") + CountMode(records, "Aggressive") == |records|
  {
    var records := seq(|recs|, i requires 0 <= i < |recs| => ToStored(recs[i]));
    ModeCountsBound(records);
  }

  /** Exactly four records give no report, exactly five give one. */
  lemma ReportNeedsFiveRecords(records: seq<StoredRecord>, now: string)
    ensures |records| == 4 ==> SimulatedReport(Some(records), now) == None
    ensures |records| == 5 ==> SimulatedReport(Some(records), now).Some?
  {
  }

  /** Every tie for the top count, and a balanced plurality, leads to the optimal branch. */
  lemma TiesAreOptimal(calm: nat, balanced: nat, aggressive: nat)
    ensures calm == aggressive && calm >= balanced ==> ChooseAnalysis(calm, balanced, aggressive) == Optimal
    ensures balanced == aggressive && balanced >= calm ==> ChooseAnalysis(calm, balanced, aggressive) == Optimal
    ensures balanced == calm && balanced >= aggressive ==> ChooseAnalysis(calm, balanced, aggressive) == Optimal
    ensures balanced > calm && balanced > aggressive ==> ChooseAnalysis(calm, balanced, aggressive) == Optimal
  {
  }

  /**
   * The OpenAI summary and the local report agree on the mode counts and the
   * interaction total, and the local rounded mean is the nearest integer to the
   * summary's unrounded mean.
   */
  lemma OpenAISummaryAgreesWithLocalStats(records: seq<StoredRecord>, now: string)
    requires |records| >= MinRecords
    ensures var s := SimulatedReport(Some(records), now).value.stats;
            var summary := OpenAISummary(records);
            summary.totalInteractions == Some(s.totalInteractions) &&
            summary.calm == s.calmCount && summary.balanced == s.balancedCount &&
            summary.aggressive == s.aggressiveCount &&
            summary.avgScore.Some? &&
            s.avgScore as real - 0.5 <= summary.avgScore.value < s.avgScore as real + 0.5
  {
    var s := LocalStats(records);
    var n := |records|;
    var sum := ScoreSum(records);
    assert 2 * n * s.avgScore - n <= 2 * sum < 2 * n * s.avgScore + n;
    NearestWithin(s.avgScore as real, MeanScore(records).value, n as real, sum as real);
  }

  /** Multiplying through by a positive count preserves the half-open window around `a`. */
  lemma NearestWithin(a: real, mean: real, n: real, sum: real)
    requires n > 0.0 && mean * n == sum
    requires 2.0 * n * a - n <= 2.0 * sum < 2.0 * n * a + n
    ensures a - 0.5 <= mean < a + 0.5
  {
    var lo, hi := (a - 0.5) * n, (a + 0.5) * n;
    assert lo <= sum < hi;
    var below, above := mean - (a - 0.5), (a + 0.5) - mean;
    assert below * n == sum - lo;
    assert above * n == hi - sum;
    ScaleSign(below, n);
    ScaleSign(above, n);
  }

  /** Scaling by a positive number keeps the sign. */
  lemma ScaleSign(x: real, n: real)
    requires n > 0.0
    ensures x < 0.0 ==> x * n < 0.0
    ensures x <= 0.0 ==> x * n <= 0.0
  {
  }

  /** A remote service that replies yields a report even for fewer than five records. */
  lemma RemoteReportIgnoresMinimum(config: AIConfig, records: seq<StoredRecord>, now: string, content: string)
    requires config.mode == "openai" && config.openaiApiKey != ""
    ensures GenerateAIReport(config, Some(records), now, Replied(content)) ==
            Some(RemoteReport(now, content, OpenAISummary(records), OpenAI))
  {
  }
}
