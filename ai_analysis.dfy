/**
 * The summary side of the `aiAnalysis` command (cmd/aiAnalysis.go): the per-level tally and
 * report built before saving, the statistics printed at the end, and the default output
 * file name. The clock is a parameter (the timestamp text), the JSON encoding and the file
 * write are not modelled, and console output is returned as the sequence of lines written.
 */
module AiAnalysis {
  import opened Sequences
  import opened Strings
  import opened AiAnalyzer

  // ---------------------------------------------------------------------------------------
  // The per-level tally (cmd/aiAnalysis.go:112-114 and 130-131)
  // ---------------------------------------------------------------------------------------

  /** Go's `m[k]++`: a missing key counts from zero. */
  function Bump(m: map<string, int>, k: string): (r: map<string, int>)
    ensures r.Keys == m.Keys + {k}
    ensures r[k] == (if k in m then m[k] else 0) + 1
    ensures forall j :: j in m && j != k ==> r[j] == m[j]
  {
    m[k := (if k in m then m[k] else 0) + 1]
  }

  /** The map the loops build: each analysis bumps the entry of its security level. */
  function Tally(analyses: seq<AIAnalysis>): map<string, int>
    decreases |analyses|
  {
    if |analyses| == 0 then map[]
    else Bump(Tally(analyses[..|analyses| - 1]), analyses[|analyses| - 1].securityLevel)
  }

  /** The number of analyses at `level`. */
  function CountLevel(analyses: seq<AIAnalysis>, level: string): (n: nat)
    ensures n <= |analyses|
    decreases |analyses|
  {
    if |analyses| == 0 then 0
    else CountLevel(analyses[..|analyses| - 1], level) + (if analyses[|analyses| - 1].securityLevel == level then 1 else 0)
  }

  /** A level is counted exactly when some analysis has it. */
  lemma {:induction false} CountLevelPositive(analyses: seq<AIAnalysis>, level: string)
    ensures CountLevel(analyses, level) > 0 <==> exists a :: a in analyses && a.securityLevel == level
  {
    if |analyses| > 0 {
      var init := analyses[..|analyses| - 1];
      CountLevelPositive(init, level);
      assert analyses == init + [analyses[|analyses| - 1]];
    }
  }

  /** The tally has a key exactly for each level that occurs, and holds that level's count. */
  lemma {:induction false} TallyCounts(analyses: seq<AIAnalysis>, level: string)
    ensures level in Tally(analyses) <==> CountLevel(analyses, level) > 0
    ensures level in Tally(analyses) ==> Tally(analyses)[level] == CountLevel(analyses, level)
  {
    if |analyses| > 0 {
      TallyCounts(analyses[..|analyses| - 1], level);
    }
  }

  /** The keys are pairwise different. */
  predicate Distinct(keys: seq<string>) {
    forall i, j :: 0 <= i < j < |keys| ==> keys[i] != keys[j]
  }

  /** The sum of the values of `m` at `keys`, a missing key counting as Go's zero value. */
  function SumAt(m: map<string, int>, keys: seq<string>): int
    decreases |keys|
  {
    if |keys| == 0 then 0
    else SumAt(m, keys[..|keys| - 1]) + (var k := keys[|keys| - 1]; if k in m then m[k] else 0)
  }

  /** How often `k` occurs in `keys`. */
  function Occurrences(keys: seq<string>, k: string): nat
    decreases |keys|
  {
    if |keys| == 0 then 0
    else Occurrences(keys[..|keys| - 1], k) + (if keys[|keys| - 1] == k then 1 else 0)
  }

  lemma {:induction false} OccursOnce(keys: seq<string>, k: string)
    requires Distinct(keys) && k in keys
    ensures Occurrences(keys, k) == 1
    decreases |keys|
  {
    var init := keys[..|keys| - 1];
    assert Distinct(init);
    if keys[|keys| - 1] == k {
      OccursNot(init, k);
    } else {
      assert keys == init + [keys[|keys| - 1]];
      OccursOnce(init, k);
    }
  }

  lemma {:induction false} OccursNot(keys: seq<string>, k: string)
    requires k !in keys
    ensures Occurrences(keys, k) == 0
    decreases |keys|
  {
    if |keys| > 0 {
      OccursNot(keys[..|keys| - 1], k);
    }
  }

  /** Bumping a key adds one to the sum for every time the key is listed. */
  lemma {:induction false} SumAtBump(m: map<string, int>, keys: seq<string>, k: string)
    ensures SumAt(Bump(m, k), keys) == SumAt(m, keys) + Occurrences(keys, k)
    decreases |keys|
  {
    if |keys| > 0 {
      SumAtBump(m, keys[..|keys| - 1], k);
    }
  }

  /**
   * The counts add up to the number of analyses: summed over any list naming each level of
   * the tally once, the tally's values give the number of analyses.
   */
  lemma TallySum(analyses: seq<AIAnalysis>, keys: seq<string>)
    requires Distinct(keys)
    requires forall k :: k in Tally(analyses) ==> k in keys
    ensures SumAt(Tally(analyses), keys) == |analyses|
  {
    forall a | a in analyses
      ensures a.securityLevel in keys
    {
      CountLevelPositive(analyses, a.securityLevel);
      TallyCounts(analyses, a.securityLevel);
    }
    TallySumOver(analyses, keys);
  }

  lemma {:induction false} TallySumOver(analyses: seq<AIAnalysis>, keys: seq<string>)
    requires Distinct(keys)
    requires forall a :: a in analyses ==> a.securityLevel in keys
    ensures SumAt(Tally(analyses), keys) == |analyses|
    decreases |analyses|
  {
    if |analyses| > 0 {
      var init := analyses[..|analyses| - 1];
      var last := analyses[|analyses| - 1];
      assert forall a :: a in init ==> a in analyses;
      TallySumOver(init, keys);
      SumAtBump(Tally(init), keys, last.securityLevel);
      OccursOnce(keys, last.securityLevel);
    } else {
      SumAtEmpty(keys);
    }
  }

  lemma {:induction false} SumAtEmpty(keys: seq<string>)
    ensures SumAt(map[], keys) == 0
    decreases |keys|
  {
    if |keys| > 0 {
      SumAtEmpty(keys[..|keys| - 1]);
    }
  }

  /** Four analyses at SAFE, SAFE, CRITICAL, UNKNOWN tally to two SAFE, one CRITICAL, one UNKNOWN. */
  lemma TallyExample(analyses: seq<AIAnalysis>)
    requires |analyses| == 4
    requires analyses[0].securityLevel == "SAFE" && analyses[1].securityLevel == "SAFE"
    requires analyses[2].securityLevel == "CRITICAL" && analyses[3].securityLevel == "UNKNOWN"
    ensures Tally(analyses) == map["SAFE" := 2, "CRITICAL" := 1, "UNKNOWN" := 1]
  {
    assert analyses[..3][..2] == analyses[..2];
    assert analyses[..2][..1] == analyses[..1];
    assert analyses[..1][..0] == [];
    assert Tally(analyses[..1]) == map["SAFE" := 1];
    assert Tally(analyses[..2]) == map["SAFE" := 2];
    assert Tally(analyses[..3]) == map["SAFE" := 2, "CRITICAL" := 1];
    assert analyses[..4] == analyses;
  }

  /** The total number of issues over all analyses. */
  function TotalIssues(analyses: seq<AIAnalysis>): (n: nat)
    decreases |analyses|
  {
    if |analyses| == 0 then 0
    else TotalIssues(analyses[..|analyses| - 1]) + |analyses[|analyses| - 1].issues|
  }

  /** Issue counts add up over a split collection, so an empty collection contributes nothing. */
  lemma {:induction false} TotalIssuesAppend(a: seq<AIAnalysis>, b: seq<AIAnalysis>)
    ensures TotalIssues(a + b) == TotalIssues(a) + TotalIssues(b)
    decreases |b|
  {
    if |b| > 0 {
      var bInit := b[..|b| - 1];
      TotalIssuesAppend(a, bInit);
      assert (a + b)[..|a + b| - 1] == a + bInit;
    } else {
      assert a + b == a;
    }
  }

  /** No analyses: no issues and an empty tally. */
  lemma EmptySummary()
    ensures TotalIssues([]) == 0 && Tally([]) == map[]
  {
  }

  // ---------------------------------------------------------------------------------------
  // The saved report (cmd/aiAnalysis.go:97-124)
  // ---------------------------------------------------------------------------------------

  /** The JSON report without its generation time. */
  datatype AnalysisReport = AnalysisReport(totalPods: int, summary: map<string, int>, analyses: seq<AIAnalysis>)

  /** The report `saveAnalysisResults` encodes, built by its counting loop. */
  method BuildReport(analyses: seq<AIAnalysis>) returns (report: AnalysisReport)
    ensures report == AnalysisReport(|analyses|, Tally(analyses), analyses)
  {
    var summary: map<string, int> := map[];
    for i := 0 to |analyses|
      invariant summary == Tally(analyses[..i])
    {
      var level := analyses[i].securityLevel;
      summary := summary[level := (if level in summary then summary[level] else 0) + 1];
      assert analyses[..i + 1][..i] == analyses[..i];
    }
    assert analyses[..|analyses|] == analyses;
    report := AnalysisReport(|analyses|, summary, analyses);
  }

  /** The saved total equals the sum of the saved per-level counts. */
  lemma ReportConsistent(analyses: seq<AIAnalysis>, keys: seq<string>)
    requires Distinct(keys)
    requires forall k :: k in Tally(analyses) ==> k in keys
    ensures var report := AnalysisReport(|analyses|, Tally(analyses), analyses);
            SumAt(report.summary, keys) == report.totalPods
  {
    TallySum(analyses, keys);
  }

  // ---------------------------------------------------------------------------------------
  // The printed statistics (cmd/aiAnalysis.go:126-155)
  // ---------------------------------------------------------------------------------------

  /** The levels the distribution lists, in its order, with their symbols. */
  const KnownLevels: seq<(string, string)> := [
    ("SAFE", "\U{2705}"),
    ("MODERATE", "\U{26A0}\U{FE0F}"),
    ("HIGH_RISK", "\U{1F534}"),
    ("CRITICAL", "\U{1F6A8}"),
    ("UNKNOWN", "\U{2753}")]

  function RuleLine(): string {
    seq(50, _ => '=')
  }

  /** The lines printed before the distribution. */
  function StatsHeader(pods: int, issues: int): seq<string> {
    [ "\n" + RuleLine() + "\n",
      "\U{1F4CA} AI安全分析统计\n",
      RuleLine() + "\n",
      "总Pod数量: " + IntToString(pods) + "\n",
      "发现问题总数: " + IntToString(issues) + "\n",
      "\n安全等级分布:\n" ]
  }

  function LevelLine(level: (string, string), count: int): string {
    "  " + level.1 + " " + level.0 + ": " + IntToString(count) + "\n"
  }

  function LevelLineFn(stats: map<string, int>): ((string, string)) -> seq<string> {
    (level: (string, string)) =>
      if level.0 in stats && stats[level.0] > 0 then [LevelLine(level, stats[level.0])] else []
  }

  /** One line per listed level whose count is positive, in the order of `levels`. */
  function DistributionLines(stats: map<string, int>, levels: seq<(string, string)>): seq<string> {
    FlatMap(LevelLineFn(stats), levels)
  }

  /** Everything `printAnalysisStats` prints. */
  function StatsLines(analyses: seq<AIAnalysis>): seq<string> {
    StatsHeader(|analyses|, TotalIssues(analyses)) + DistributionLines(Tally(analyses), KnownLevels)
  }

  /** The statistics loop and the distribution loop. */
  method PrintAnalysisStats(analyses: seq<AIAnalysis>) returns (lines: seq<string>)
    ensures lines == StatsLines(analyses)
  {
    var stats: map<string, int> := map[];
    var totalIssues := 0;
    for i := 0 to |analyses|
      invariant stats == Tally(analyses[..i])
      invariant totalIssues == TotalIssues(analyses[..i])
    {
      var level := analyses[i].securityLevel;
      stats := stats[level := (if level in stats then stats[level] else 0) + 1];
      totalIssues := totalIssues + |analyses[i].issues|;
      assert analyses[..i + 1][..i] == analyses[..i];
    }
    assert analyses[..|analyses|] == analyses;
    lines := StatsHeader(|analyses|, totalIssues);
    ghost var header := lines;
    for j := 0 to |KnownLevels|
      invariant lines == header + DistributionLines(stats, KnownLevels[..j])
    {
      var level := KnownLevels[j];
      if level.0 in stats && stats[level.0] > 0 {
        lines := lines + [LevelLine(level, stats[level.0])];
      }
      FlatMapStep(LevelLineFn(stats), KnownLevels, j);
    }
    assert KnownLevels[..|KnownLevels|] == KnownLevels;
  }

  /**
   * The distribution lists a known level exactly when some analysis has it, with that level's
   * count; levels outside the five are counted but never listed.
   */
  lemma DistributionMember(analyses: seq<AIAnalysis>, line: string)
    ensures line in DistributionLines(Tally(analyses), KnownLevels) <==>
      exists level :: level in KnownLevels && CountLevel(analyses, level.0) > 0
                      && line == LevelLine(level, CountLevel(analyses, level.0))
  {
    var stats := Tally(analyses);
    FlatMapMember(LevelLineFn(stats), KnownLevels, line);
    forall level | level in KnownLevels
      ensures line in LevelLineFn(stats)(level) <==>
              CountLevel(analyses, level.0) > 0 && line == LevelLine(level, CountLevel(analyses, level.0))
    {
      TallyCounts(analyses, level.0);
    }
  }

  /** At most five distribution lines are printed. */
  lemma DistributionBound(stats: map<string, int>)
    ensures |DistributionLines(stats, KnownLevels)| <= |KnownLevels|
  {
    DistributionBoundOf(stats, KnownLevels);
  }

  lemma {:induction false} DistributionBoundOf(stats: map<string, int>, levels: seq<(string, string)>)
    ensures |DistributionLines(stats, levels)| <= |levels|
  {
    if |levels| > 0 {
      DistributionBoundOf(stats, levels[..|levels| - 1]);
    }
  }

  // ---------------------------------------------------------------------------------------
  // The output file (cmd/aiAnalysis.go:42-50 and 79-84)
  // ---------------------------------------------------------------------------------------

  datatype OutputFormat = Html | Json

  /** The save step's switch: "html" writes HTML, every other format writes JSON. */
  function FormatOf(format: string): (f: OutputFormat)
    ensures f == Html <==> format == "html"
  {
    if format == "html" then Html else Json
  }

  /** The output path: the given one, else a name stamped with `timestamp` whose extension follows the format. */
  function OutputFileName(output: string, format: string, timestamp: string): (name: string)
    ensures output != "" ==> name == output
  {
    if output != "" then output
    else if format == "html" then "pod_security_analysis_" + timestamp + ".html"
    else "pod_security_analysis_" + timestamp + ".json"
  }

  /** The default name ends in ".html" exactly when the format is "html", and in ".json" otherwise. */
  lemma DefaultFileNameExtension(format: string, timestamp: string)
    ensures var name := OutputFileName("", format, timestamp);
            && HasPrefix(name, "pod_security_analysis_" + timestamp)
            && (HasSuffix(name, ".html") <==> format == "html")
            && (format != "html" ==> HasSuffix(name, ".json"))
  {
    var stem := "pod_security_analysis_" + timestamp;
    var name := OutputFileName("", format, timestamp);
    var ext := if format == "html" then ".html" else ".json";
    assert name == stem + ext;
    assert name[..|stem|] == stem;
    assert name[|name| - 5..] == ext;
    assert ".json" != ".html" by {
      assert ".json"[1] != ".html"[1];
    }
  }

  /** With no output path, the default name's extension agrees with the format the save step writes. */
  lemma DefaultFileNameMatchesFormat(format: string, timestamp: string)
    ensures HasSuffix(OutputFileName("", format, timestamp), ".html") <==> FormatOf(format) == Html
  {
    DefaultFileNameExtension(format, timestamp);
  }
}
