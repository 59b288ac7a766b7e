/** The tail of `analyzeCode` (services/codeAnalysisService.ts): the five
    answers of the language model are checked in the order they are asked
    for, and the report is assembled from them by the parsers. The answers
    themselves, and the prompts that produce them, are parameters. */
module AnalysisReport {
  import opened Wrappers
  import opened Strings
  import opened TextMatch
  import opened AnalysisParsers
  import opened MetricsParser

  datatype Complexity = Complexity(score: nat, explanation: string, suggestions: seq<string>)
  datatype SecurityReport = SecurityReport(vulnerabilities: seq<Vulnerability>, summary: string)
  datatype StyleReport = StyleReport(issues: seq<StyleIssue>, summary: string)
  datatype Documentation = Documentation(overview: string, functions: seq<FunctionDoc>)
  datatype CodeAnalysisResult = CodeAnalysisResult(complexity: Complexity, security: SecurityReport,
                                                   style: StyleReport, documentation: Documentation,
                                                   metrics: CodeMetrics)

  /** The `text` of each of the five responses, absent when the response has none. */
  datatype Answers = Answers(complexity: Option<string>, security: Option<string>, style: Option<string>,
                             documentation: Option<string>, metrics: Option<string>)

  /** `parseInt(text.match(/score:?\s*(\d+)/i)?.[1] || '5')`: the number
      after the first `score`, or 5. */
  function ComplexityScore(text: string): nat {
    match FirstMatch(text, 0, ScoreAt)
    case None => 5
    case Some(n) => n
  }

  /** `lines.filter(line => line.toLowerCase().includes('suggestion'))`. */
  function SuggestionLines(lines: seq<string>): (r: seq<string>)
    ensures |r| <= |lines|
    ensures forall l :: l in r <==> l in lines && Mentions(l, "suggestion")
    ensures |lines| == 1 ==> r == (if Mentions(lines[0], "suggestion") then lines else [])
  {
    if lines == [] then []
    else (if Mentions(lines[0], "suggestion") then [lines[0]] else []) + SuggestionLines(lines[1..])
  }

  /** The filter goes line by line: with the one-line case above, this fixes
      the order and the multiplicity of the lines it keeps. */
  lemma {:induction false} SuggestionLinesAppend(a: seq<string>, b: seq<string>)
    ensures SuggestionLines(a + b) == SuggestionLines(a) + SuggestionLines(b)
  {
    if a == [] {
      assert a + b == b;
    } else {
      var h := if Mentions(a[0], "suggestion") then [a[0]] else [];
      assert (a + b)[0] == a[0];
      assert (a + b)[1..] == a[1..] + b;
      assert SuggestionLines(a + b) == h + SuggestionLines(a[1..] + b);
      SuggestionLinesAppend(a[1..], b);
      assert SuggestionLines(a) == h + SuggestionLines(a[1..]);
    }
  }

  const AIUnavailable: string := "AI service is not available. " + "API key might be missing or invalid."
  const FailurePrefix: string := "Code analysis failed: "

  /** The error thrown inside the `try` when an answer is missing, as the
      `catch` rethrows it. */
  function MissingAnswer(what: string): string {
    FailurePrefix + "Failed to get " + what + " from AI model"
  }

  /** The report for the five answers: an error when the client is not
      configured or when an answer is missing or empty (the first one, in
      the order they are asked for), and otherwise each part parsed from its
      answer, with the answer itself as the part's summary. */
  function Analyze(aiAvailable: bool, a: Answers): (r: Result<CodeAnalysisResult>)
    ensures r.Ok? <==> aiAvailable && Truthy(a.complexity) && Truthy(a.security) && Truthy(a.style)
                       && Truthy(a.documentation) && Truthy(a.metrics)
    ensures !aiAvailable ==> r == Err(AIUnavailable)
    ensures aiAvailable && !Truthy(a.complexity) ==> r == Err(MissingAnswer("complexity analysis"))
    ensures aiAvailable && Truthy(a.complexity) && !Truthy(a.security) ==> r == Err(MissingAnswer("security analysis"))
    ensures (aiAvailable && Truthy(a.complexity) && Truthy(a.security) && !Truthy(a.style))
            ==> r == Err(MissingAnswer("style analysis"))
    ensures (aiAvailable && Truthy(a.complexity) && Truthy(a.security) && Truthy(a.style)
             && !Truthy(a.documentation))
            ==> r == Err(MissingAnswer("documentation"))
    ensures (aiAvailable && Truthy(a.complexity) && Truthy(a.security) && Truthy(a.style)
             && Truthy(a.documentation) && !Truthy(a.metrics))
            ==> r == Err(MissingAnswer("metrics analysis"))
    ensures r.Ok? ==> var c := a.complexity.value;
                      r.value.complexity == Complexity(ComplexityScore(c), c, SuggestionLines(Split(c, '\n')))
    ensures r.Ok? ==> r.value.security == SecurityReport(SecurityVulnerabilities(a.security.value), a.security.value)
    ensures r.Ok? ==> r.value.style == StyleReport(StyleIssues(a.style.value), a.style.value)
    ensures r.Ok? ==> r.value.documentation == Documentation(a.documentation.value, FunctionDocs(a.documentation.value))
    ensures r.Ok? ==> r.value.metrics == MetricsReport(Split(a.metrics.value, '\n'))
  {
    if !aiAvailable then Err(AIUnavailable)
    else if !Truthy(a.complexity) then Err(MissingAnswer("complexity analysis"))
    else if !Truthy(a.security) then Err(MissingAnswer("security analysis"))
    else if !Truthy(a.style) then Err(MissingAnswer("style analysis"))
    else if !Truthy(a.documentation) then Err(MissingAnswer("documentation"))
    else if !Truthy(a.metrics) then Err(MissingAnswer("metrics analysis"))
    else
      var c := a.complexity.value;
      MetricsAgree(a.metrics.value);
      Ok(CodeAnalysisResult(
        Complexity(ComplexityScore(c), c, SuggestionLines(Split(c, '\n'))),
        SecurityReport(SecurityVulnerabilities(a.security.value), a.security.value),
        StyleReport(StyleIssues(a.style.value), a.style.value),
        Documentation(a.documentation.value, FunctionDocs(a.documentation.value)),
        CodeMetricsOf(a.metrics.value)))
  }

  /** The score is the number read at the leftmost `score` that has digits
      after it; with no such `score` in the answer it is 5. */
  lemma {:induction false} ComplexityScoreIsLeftmost(text: string)
    ensures (forall j :: 0 <= j <= |text| ==> ScoreAt(text, j).None?) ==> ComplexityScore(text) == 5
    ensures forall j :: 0 <= j <= |text| && ScoreAt(text, j).Some?
                        && (forall k :: 0 <= k < j ==> ScoreAt(text, k).None?)
                        ==> ComplexityScore(text) == ScoreAt(text, j).value
  {
    forall j | 0 <= j <= |text| && ScoreAt(text, j).Some? && (forall k :: 0 <= k < j ==> ScoreAt(text, k).None?)
      ensures ComplexityScore(text) == ScoreAt(text, j).value
    {
      FirstMatchLeftmost(text, ScoreAt, j);
    }
  }

  /** The score is read after `score`, with or without a colon, in any
      case; with no score in the answer it is 5. */
  lemma ComplexityScoreRead()
    ensures ComplexityScore("Score: 7") == 7
    ensures ComplexityScore("score 12") == 12
    ensures ComplexityScore("") == 5
  {
    var s := "Score: 7";
    assert KeyAt(s, "score", 0) by { assert ToLower(s)[0..5] == "score"; }
    assert s[5] == ':' && IsSpace(s[6]) && !IsSpace(s[7]) && IsDigit(s[7]);
    assert SpaceRunEnd(s, 6) == 7 by { assert SpaceRunEnd(s, 7) == 7; }
    assert DigitRunEnd(s, 7) == 8 by { assert DigitRunEnd(s, 8) == 8; }
    assert s[7..8] == "7";
    assert DigitsValue("7") == 7 by { assert "7"[..0] == ""; }
    assert ScoreAt(s, 0) == Some(7);
    var t := "score 12";
    assert KeyAt(t, "score", 0) by { assert ToLower(t)[0..5] == "score"; }
    assert t[5] == ' ' && IsSpace(t[5]) && !IsSpace(t[6]) && IsDigit(t[6]) && IsDigit(t[7]);
    assert SpaceRunEnd(t, 5) == 6 by { assert SpaceRunEnd(t, 6) == 6; }
    assert DigitRunEnd(t, 6) == 8 by { assert DigitRunEnd(t, 7) == 8 by { assert DigitRunEnd(t, 8) == 8; } }
    assert t[6..8] == "12";
    assert DigitsValue("12") == 12 by {
      assert "12"[..1] == "1" && "1"[..0] == "";
    }
    assert ScoreAt(t, 0) == Some(12);
    assert !KeyAt("", "score", 0);
    assert FirstMatch("", 1, ScoreAt) == None;
  }
}
