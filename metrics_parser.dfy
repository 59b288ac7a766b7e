/** `parseCodeMetrics` (services/codeAnalysisService.ts): the metrics answer
    is read line by line into one record. Each line goes through four
    independent chains of tests (quality, duplication, test coverage,
    performance); a number is the first digit run of its line, so a later
    line that names the same figure overwrites an earlier one, and the lists
    grow in line order. `MetricsReport` states that outcome figure by figure
    ("the last line that names it", "the lines that name it, in order") and
    `MetricsAgree` proves the loop computes it. */
module MetricsParser {
  import opened Wrappers
  import opened Strings
  import opened TextMatch

  datatype Quality = Quality(maintainability: nat, reliability: nat, security: nat, performance: nat)
  datatype DuplicatedBlock = DuplicatedBlock(startLine: nat, endLine: nat, duplicateOf: string)
  datatype Duplication = Duplication(percentage: nat, duplicatedBlocks: seq<DuplicatedBlock>)
  datatype TestCoverage = TestCoverage(estimatedCoverage: nat, criticalPaths: seq<string>, suggestedTests: seq<string>)
  datatype Bottleneck = Bottleneck(location: string, description: string, impact: Level)
  datatype Performance = Performance(timeComplexity: string, spaceComplexity: string, bottlenecks: seq<Bottleneck>)
  datatype CodeMetrics = CodeMetrics(quality: Quality, duplication: Duplication,
                                     testCoverage: TestCoverage, performance: Performance)

  /** The record the parser starts from, and returns for an empty answer. */
  const DefaultMetrics: CodeMetrics :=
    CodeMetrics(Quality(0, 0, 0, 0), Duplication(0, []), TestCoverage(0, [], []), Performance("Unknown", "Unknown", []))

  /** The six figures read as a number. */
  datatype Gauge = Maintainability | Reliability | SecurityScore | PerformanceScore
                 | DuplicationPercentage | EstimatedCoverage

  function GaugeValue(m: CodeMetrics, g: Gauge): nat {
    match g
    case Maintainability => m.quality.maintainability
    case Reliability => m.quality.reliability
    case SecurityScore => m.quality.security
    case PerformanceScore => m.quality.performance
    case DuplicationPercentage => m.duplication.percentage
    case EstimatedCoverage => m.testCoverage.estimatedCoverage
  }

  /** Whether a line sets the figure `g`: it names the figure's key and no
      key tested before it in the same chain. */
  predicate Reads(line: string, g: Gauge) {
    match g
    case Maintainability => Mentions(line, "maintainability:")
    case Reliability => !Mentions(line, "maintainability:") && Mentions(line, "reliability:")
    case SecurityScore =>
      !Mentions(line, "maintainability:") && !Mentions(line, "reliability:") && Mentions(line, "security:")
    case PerformanceScore =>
      !Mentions(line, "maintainability:") && !Mentions(line, "reliability:") && !Mentions(line, "security:")
      && Mentions(line, "performance:")
    case DuplicationPercentage => Mentions(line, "duplication:")
    case EstimatedCoverage => Mentions(line, "test coverage:")
  }

  /** The duplicated block a `duplicated block:` line reports, when it holds
      `lines N-M`; what it duplicates follows the case-sensitive `duplicate of:`. */
  function LineBlock(line: string): (r: seq<DuplicatedBlock>)
    ensures |r| <= 1
    ensures |r| == 1 <==> FirstMatch(line, 0, BlockLinesAt).Some?
  {
    match FirstMatch(line, 0, BlockLinesAt)
    case None => []
    case Some(m) => [DuplicatedBlock(m.0, m.1, TrimOr(SecondPiece(line, "duplicate of:"), "Unknown"))]
  }

  /** `s.split(sep)[1]?.split(stop)[0]`. */
  function Between(s: string, sep: string, stop: string): Option<string>
    requires |sep| > 0
  {
    match SecondPiece(s, sep)
    case None => None
    case Some(t) => Some(Before(t, stop))
  }

  /** A `bottleneck:` line: where (after `at:`, up to `impact:`, else
      `'Unknown'`), what (after `bottleneck:`, up to `at:`, else `''`) and
      how much (the level after `impact:`, else low). */
  function BottleneckOf(line: string): (r: Bottleneck)
    ensures FirstMatch(line, 0, ImpactAt).None? ==> r.impact == Low
    ensures r.location != ""
  {
    var impact := FirstMatch(line, 0, ImpactAt);
    Bottleneck(TrimOr(Between(line, "at:", "impact:"), "Unknown"),
               TrimOr(Between(line, "bottleneck:", "at:"), ""),
               if impact.Some? then impact.value else Low)
  }

  /** The text after a key, trimmed, or a fallback when there is none. */
  function After(line: string, key: string, fallback: string): string
    requires |key| > 0
  {
    TrimOr(SecondPiece(line, key), fallback)
  }

  function QualityStep(q: Quality, line: string): Quality {
    if Mentions(line, "maintainability:") then q.(maintainability := FirstNumber(line))
    else if Mentions(line, "reliability:") then q.(reliability := FirstNumber(line))
    else if Mentions(line, "security:") then q.(security := FirstNumber(line))
    else if Mentions(line, "performance:") then q.(performance := FirstNumber(line))
    else q
  }

  function DuplicationStep(d: Duplication, line: string): Duplication {
    if Mentions(line, "duplication:") then d.(percentage := FirstNumber(line))
    else if Mentions(line, "duplicated block:") then d.(duplicatedBlocks := d.duplicatedBlocks + LineBlock(line))
    else d
  }

  function CoverageStep(t: TestCoverage, line: string): TestCoverage {
    if Mentions(line, "test coverage:") then t.(estimatedCoverage := FirstNumber(line))
    else if Mentions(line, "critical path:") then
      t.(criticalPaths := t.criticalPaths + [After(line, "critical path:", "")])
    else if Mentions(line, "suggested test:") then
      t.(suggestedTests := t.suggestedTests + [After(line, "suggested test:", "")])
    else t
  }

  function PerformanceStep(p: Performance, line: string): Performance {
    if Mentions(line, "time complexity:") then p.(timeComplexity := After(line, "time complexity:", "Unknown"))
    else if Mentions(line, "space complexity:") then p.(spaceComplexity := After(line, "space complexity:", "Unknown"))
    else if Mentions(line, "bottleneck:") then p.(bottlenecks := p.bottlenecks + [BottleneckOf(line)])
    else p
  }

  /** One line of the loop: an empty line is skipped, any other goes through
      the four chains. */
  function MetricsStep(m: CodeMetrics, line: string): CodeMetrics {
    if line == "" then m
    else CodeMetrics(QualityStep(m.quality, line), DuplicationStep(m.duplication, line),
                     CoverageStep(m.testCoverage, line), PerformanceStep(m.performance, line))
  }

  function MetricsRun(lines: seq<string>): CodeMetrics
    decreases |lines|
  {
    if lines == [] then DefaultMetrics
    else MetricsStep(MetricsRun(lines[..|lines| - 1]), lines[|lines| - 1])
  }

  /** `parseCodeMetrics(text)`: the defaults for an empty answer, else the loop. */
  function CodeMetricsOf(text: string): CodeMetrics {
    if text == "" then DefaultMetrics else MetricsRun(Split(text, '\n'))
  }

  // The outcome, figure by figure.

  /** The number on the last non-empty line that sets `g`, or 0. */
  function LastReading(lines: seq<string>, g: Gauge): nat
    decreases |lines|
  {
    if lines == [] then 0
    else
      var last := lines[|lines| - 1];
      if last != "" && Reads(last, g) then FirstNumber(last) else LastReading(lines[..|lines| - 1], g)
  }

  /** The blocks of the `duplicated block:` lines, in order. */
  function BlocksOf(lines: seq<string>): seq<DuplicatedBlock>
    decreases |lines|
  {
    if lines == [] then []
    else
      var last := lines[|lines| - 1];
      BlocksOf(lines[..|lines| - 1])
      + (if last != "" && !Mentions(last, "duplication:") && Mentions(last, "duplicated block:")
         then LineBlock(last) else [])
  }

  /** The texts of the `critical path:` lines, in order. */
  function CriticalPathsOf(lines: seq<string>): seq<string>
    decreases |lines|
  {
    if lines == [] then []
    else
      var last := lines[|lines| - 1];
      CriticalPathsOf(lines[..|lines| - 1])
      + (if last != "" && !Mentions(last, "test coverage:") && Mentions(last, "critical path:")
         then [After(last, "critical path:", "")] else [])
  }

  /** The texts of the `suggested test:` lines, in order. */
  function SuggestedTestsOf(lines: seq<string>): seq<string>
    decreases |lines|
  {
    if lines == [] then []
    else
      var last := lines[|lines| - 1];
      SuggestedTestsOf(lines[..|lines| - 1])
      + (if last != "" && !Mentions(last, "test coverage:") && !Mentions(last, "critical path:")
            && Mentions(last, "suggested test:")
         then [After(last, "suggested test:", "")] else [])
  }

  /** The time complexity of the last `time complexity:` line, or `'Unknown'`. */
  function TimeComplexityOf(lines: seq<string>): string
    decreases |lines|
  {
    if lines == [] then "Unknown"
    else
      var last := lines[|lines| - 1];
      if last != "" && Mentions(last, "time complexity:") then After(last, "time complexity:", "Unknown")
      else TimeComplexityOf(lines[..|lines| - 1])
  }

  /** The space complexity of the last `space complexity:` line, or `'Unknown'`. */
  function SpaceComplexityOf(lines: seq<string>): string
    decreases |lines|
  {
    if lines == [] then "Unknown"
    else
      var last := lines[|lines| - 1];
      if last != "" && !Mentions(last, "time complexity:") && Mentions(last, "space complexity:")
      then After(last, "space complexity:", "Unknown")
      else SpaceComplexityOf(lines[..|lines| - 1])
  }

  /** The bottlenecks of the `bottleneck:` lines, in order. */
  function BottlenecksOf(lines: seq<string>): seq<Bottleneck>
    decreases |lines|
  {
    if lines == [] then []
    else
      var last := lines[|lines| - 1];
      BottlenecksOf(lines[..|lines| - 1])
      + (if last != "" && !Mentions(last, "time complexity:") && !Mentions(last, "space complexity:")
            && Mentions(last, "bottleneck:")
         then [BottleneckOf(last)] else [])
  }

  function MetricsReport(lines: seq<string>): CodeMetrics {
    CodeMetrics(
      Quality(LastReading(lines, Maintainability), LastReading(lines, Reliability),
              LastReading(lines, SecurityScore), LastReading(lines, PerformanceScore)),
      Duplication(LastReading(lines, DuplicationPercentage), BlocksOf(lines)),
      TestCoverage(LastReading(lines, EstimatedCoverage), CriticalPathsOf(lines), SuggestedTestsOf(lines)),
      Performance(TimeComplexityOf(lines), SpaceComplexityOf(lines), BottlenecksOf(lines)))
  }

  /** A non-empty line sets a figure exactly when it `Reads` it. */
  lemma StepReading(m: CodeMetrics, line: string, g: Gauge)
    requires line != ""
    ensures GaugeValue(MetricsStep(m, line), g) == if Reads(line, g) then FirstNumber(line) else GaugeValue(m, g)
  {
    match g
    case Maintainability =>
    case Reliability =>
    case SecurityScore =>
    case PerformanceScore =>
    case DuplicationPercentage =>
    case EstimatedCoverage =>
  }

  lemma {:induction false} ReadingAgrees(lines: seq<string>, g: Gauge)
    ensures GaugeValue(MetricsRun(lines), g) == LastReading(lines, g)
    decreases |lines|
  {
    if lines != [] {
      var last := lines[|lines| - 1];
      ReadingAgrees(lines[..|lines| - 1], g);
      if last != "" {
        StepReading(MetricsRun(lines[..|lines| - 1]), last, g);
      }
    }
  }

  lemma {:induction false} BlocksAgree(lines: seq<string>)
    ensures MetricsRun(lines).duplication.duplicatedBlocks == BlocksOf(lines)
    decreases |lines|
  {
    if lines != [] {
      BlocksAgree(lines[..|lines| - 1]);
    }
  }

  lemma {:induction false} CriticalPathsAgree(lines: seq<string>)
    ensures MetricsRun(lines).testCoverage.criticalPaths == CriticalPathsOf(lines)
    decreases |lines|
  {
    if lines != [] {
      CriticalPathsAgree(lines[..|lines| - 1]);
    }
  }

  lemma {:induction false} SuggestedTestsAgree(lines: seq<string>)
    ensures MetricsRun(lines).testCoverage.suggestedTests == SuggestedTestsOf(lines)
    decreases |lines|
  {
    if lines != [] {
      SuggestedTestsAgree(lines[..|lines| - 1]);
    }
  }

  lemma {:induction false} TimeComplexityAgrees(lines: seq<string>)
    ensures MetricsRun(lines).performance.timeComplexity == TimeComplexityOf(lines)
    decreases |lines|
  {
    if lines != [] {
      TimeComplexityAgrees(lines[..|lines| - 1]);
    }
  }

  lemma {:induction false} SpaceComplexityAgrees(lines: seq<string>)
    ensures MetricsRun(lines).performance.spaceComplexity == SpaceComplexityOf(lines)
    decreases |lines|
  {
    if lines != [] {
      SpaceComplexityAgrees(lines[..|lines| - 1]);
    }
  }

  lemma {:induction false} BottlenecksAgree(lines: seq<string>)
    ensures MetricsRun(lines).performance.bottlenecks == BottlenecksOf(lines)
    decreases |lines|
  {
    if lines != [] {
      BottlenecksAgree(lines[..|lines| - 1]);
    }
  }

  /** An answer of one empty line reports the defaults. */
  lemma EmptyLineReport()
    ensures MetricsReport([""]) == DefaultMetrics
  {
    assert [""][..0] == [];
  }

  /** The loop computes the figure-by-figure outcome, for every answer; for
      the empty answer both are the defaults, so the early return agrees
      with the loop. */
  lemma MetricsAgree(text: string)
    ensures CodeMetricsOf(text) == MetricsReport(Split(text, '\n'))
    ensures text == "" ==> CodeMetricsOf(text) == DefaultMetrics
  {
    var lines := Split(text, '\n');
    if text == "" {
      SplitNone("", '\n');
      EmptyLineReport();
    } else {
      var m := MetricsRun(lines);
      var r := MetricsReport(lines);
      forall g: Gauge
        ensures GaugeValue(m, g) == LastReading(lines, g)
      {
        ReadingAgrees(lines, g);
      }
      assert m.quality == r.quality;
      BlocksAgree(lines);
      assert m.duplication == r.duplication;
      CriticalPathsAgree(lines);
      SuggestedTestsAgree(lines);
      assert m.testCoverage == r.testCoverage;
      TimeComplexityAgrees(lines);
      SpaceComplexityAgrees(lines);
      BottlenecksAgree(lines);
      assert m.performance == r.performance;
    }
  }

  /** Each of the six numbers is the first digit run of the last line that
      sets it, or 0 when no line does. */
  lemma GaugeIsLastReading(text: string, g: Gauge)
    ensures GaugeValue(CodeMetricsOf(text), g) == LastReading(Split(text, '\n'), g)
  {
    MetricsAgree(text);
  }

  /** The quality chain of the loop body. */
  method ReadQuality(metrics: CodeMetrics, line: string) returns (r: CodeMetrics)
    ensures r == metrics.(quality := QualityStep(metrics.quality, line))
  {
    r := metrics;
    if Mentions(line, "maintainability:") {
      r := r.(quality := r.quality.(maintainability := FirstNumber(line)));
    } else if Mentions(line, "reliability:") {
      r := r.(quality := r.quality.(reliability := FirstNumber(line)));
    } else if Mentions(line, "security:") {
      r := r.(quality := r.quality.(security := FirstNumber(line)));
    } else if Mentions(line, "performance:") {
      r := r.(quality := r.quality.(performance := FirstNumber(line)));
    }
  }

  /** The duplication chain of the loop body. */
  method ReadDuplication(metrics: CodeMetrics, line: string) returns (r: CodeMetrics)
    ensures r == metrics.(duplication := DuplicationStep(metrics.duplication, line))
  {
    r := metrics;
    if Mentions(line, "duplication:") {
      r := r.(duplication := r.duplication.(percentage := FirstNumber(line)));
    } else if Mentions(line, "duplicated block:") {
      var blockMatch := FirstMatch(line, 0, BlockLinesAt);
      if blockMatch.Some? {
        var block := DuplicatedBlock(blockMatch.value.0, blockMatch.value.1,
                                     TrimOr(SecondPiece(line, "duplicate of:"), "Unknown"));
        r := r.(duplication := r.duplication.(duplicatedBlocks := r.duplication.duplicatedBlocks + [block]));
      }
    }
  }

  /** The test-coverage chain of the loop body. */
  method ReadCoverage(metrics: CodeMetrics, line: string) returns (r: CodeMetrics)
    ensures r == metrics.(testCoverage := CoverageStep(metrics.testCoverage, line))
  {
    r := metrics;
    if Mentions(line, "test coverage:") {
      r := r.(testCoverage := r.testCoverage.(estimatedCoverage := FirstNumber(line)));
    } else if Mentions(line, "critical path:") {
      r := r.(testCoverage := r.testCoverage.(
                criticalPaths := r.testCoverage.criticalPaths + [After(line, "critical path:", "")]));
    } else if Mentions(line, "suggested test:") {
      r := r.(testCoverage := r.testCoverage.(
                suggestedTests := r.testCoverage.suggestedTests + [After(line, "suggested test:", "")]));
    }
  }

  /** The performance chain of the loop body. */
  method ReadPerformance(metrics: CodeMetrics, line: string) returns (r: CodeMetrics)
    ensures r == metrics.(performance := PerformanceStep(metrics.performance, line))
  {
    r := metrics;
    if Mentions(line, "time complexity:") {
      r := r.(performance := r.performance.(timeComplexity := After(line, "time complexity:", "Unknown")));
    } else if Mentions(line, "space complexity:") {
      r := r.(performance := r.performance.(spaceComplexity := After(line, "space complexity:", "Unknown")));
    } else if Mentions(line, "bottleneck:") {
      var impactMatch := FirstMatch(line, 0, ImpactAt);
      var bottleneck := Bottleneck(TrimOr(Between(line, "at:", "impact:"), "Unknown"),
                                   TrimOr(Between(line, "bottleneck:", "at:"), ""),
                                   if impactMatch.Some? then impactMatch.value else Low);
      r := r.(performance := r.performance.(bottlenecks := r.performance.bottlenecks + [bottleneck]));
    }
  }

  /** `parseCodeMetrics`: each figure is the last reading of it and each
      list holds its lines in order. */
  method ParseCodeMetrics(text: string) returns (metrics: CodeMetrics)
    ensures metrics == CodeMetricsOf(text)
    ensures metrics == MetricsReport(Split(text, '\n'))
  {
    if text == "" {
      MetricsAgree(text);
      return DefaultMetrics;
    }
    metrics := DefaultMetrics;
    var lines := Split(text, '\n');
    for i := 0 to |lines|
      invariant metrics == MetricsRun(lines[..i])
    {
      var line := lines[i];
      assert lines[..i + 1][..i] == lines[..i];
      if line == "" {
        continue;
      }
      metrics := ReadQuality(metrics, line);
      metrics := ReadDuplication(metrics, line);
      metrics := ReadCoverage(metrics, line);
      metrics := ReadPerformance(metrics, line);
    }
    assert lines[..|lines|] == lines;
    MetricsAgree(text);
  }
}
