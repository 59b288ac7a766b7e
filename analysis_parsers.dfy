/** The parsers that turn the model's free-text answers into the structured
    code-analysis report (services/codeAnalysisService.ts). The three list
    parsers share one shape: the answer is split on `\n`, empty lines are
    skipped, a header line pushes the record being filled and starts a new
    one, and every other line adds to the record being filled, or is ignored
    when there is none yet. That shape is `Run`, given the parser's header
    rule `hd` and detail rule `detail`; each parser is also written as the
    source writes it, a method with a loop, proved equal to its `Run`. */
module AnalysisParsers {
  import opened Wrappers
  import opened Strings
  import opened TextMatch

  /** The parser's state between two lines: the records pushed so far and
      the record being filled (`currentVuln`, `currentIssue`, `currentFunc`). */
  datatype Scan<R> = Scan(done: seq<R>, current: Option<R>)

  function Pushed<R>(c: Option<R>): (r: seq<R>)
    ensures |r| == if c.Some? then 1 else 0
  {
    if c.Some? then [c.value] else []
  }

  /** One line of the loop. */
  function Step<R>(hd: string -> Option<R>, detail: (R, string) -> R, st: Scan<R>, line: string): Scan<R> {
    if line == "" then st
    else if hd(line).Some? then Scan(st.done + Pushed(st.current), hd(line))
    else if st.current.Some? then Scan(st.done, Some(detail(st.current.value, line)))
    else st
  }

  /** The loop over `lines`, from the state `st`. */
  function Run<R>(hd: string -> Option<R>, detail: (R, string) -> R, st: Scan<R>, lines: seq<string>): Scan<R>
    decreases |lines|
  {
    if lines == [] then st
    else Step(hd, detail, Run(hd, detail, st, lines[..|lines| - 1]), lines[|lines| - 1])
  }

  /** The push after the loop. */
  function Finish<R>(st: Scan<R>): seq<R> {
    st.done + Pushed(st.current)
  }

  /** `if (!text) return []`, then the loop over `text.split('\n')` and the final push. */
  function Records<R>(hd: string -> Option<R>, detail: (R, string) -> R, text: string): seq<R> {
    if text == "" then [] else Finish(Run(hd, detail, Scan([], None), Split(text, '\n')))
  }

  /** The non-empty lines that the header rule accepts, in order. */
  function HeaderLines<R>(hd: string -> Option<R>, lines: seq<string>): (r: seq<string>)
    decreases |lines|
    ensures forall k :: 0 <= k < |r| ==> r[k] != "" && hd(r[k]).Some?
  {
    if lines == [] then []
    else
      var last := lines[|lines| - 1];
      HeaderLines(hd, lines[..|lines| - 1]) + (if last != "" && hd(last).Some? then [last] else [])
  }

  predicate NoHeaders<R>(hd: string -> Option<R>, lines: seq<string>) {
    forall k :: 0 <= k < |lines| ==> lines[k] == "" || hd(lines[k]).None?
  }

  /** The detail lines of a block folded into the record its header started. */
  function Fill<R>(detail: (R, string) -> R, r: R, body: seq<string>): R
    decreases |body|
  {
    if body == [] then r
    else
      var last := body[|body| - 1];
      var before := Fill(detail, r, body[..|body| - 1]);
      if last == "" then before else detail(before, last)
  }

  /** Running the loop over two stretches of lines is running it over both. */
  lemma {:induction false} RunAppend<R>(hd: string -> Option<R>, detail: (R, string) -> R, st: Scan<R>,
                                        a: seq<string>, b: seq<string>)
    ensures Run(hd, detail, st, a + b) == Run(hd, detail, Run(hd, detail, st, a), b)
    decreases |b|
  {
    if b == [] {
      assert a + b == a;
    } else {
      assert (a + b)[..|a + b| - 1] == a + b[..|b| - 1];
      RunAppend(hd, detail, st, a, b[..|b| - 1]);
    }
  }

  /** Lines before the first header leave the parser where it started. */
  lemma {:induction false} LeadingLinesIgnored<R>(hd: string -> Option<R>, detail: (R, string) -> R, pre: seq<string>)
    requires NoHeaders(hd, pre)
    ensures Run(hd, detail, Scan([], None), pre) == Scan([], None)
    decreases |pre|
  {
    if pre != [] {
      LeadingLinesIgnored(hd, detail, pre[..|pre| - 1]);
    }
  }

  /** After a header, the lines up to the next header fill the current record. */
  lemma {:induction false} BodyFills<R>(hd: string -> Option<R>, detail: (R, string) -> R, st: Scan<R>, body: seq<string>)
    requires st.current.Some? && NoHeaders(hd, body)
    ensures Run(hd, detail, st, body) == Scan(st.done, Some(Fill(detail, st.current.value, body)))
    decreases |body|
  {
    if body != [] {
      BodyFills(hd, detail, st, body[..|body| - 1]);
    }
  }

  /** A header, preceded by lines without one and followed by lines without
      one, gives exactly one record: the header's, filled by the lines after it. */
  lemma SingleBlock<R>(hd: string -> Option<R>, detail: (R, string) -> R,
                       pre: seq<string>, header: string, body: seq<string>)
    requires NoHeaders(hd, pre) && header != "" && hd(header).Some? && NoHeaders(hd, body)
    ensures Finish(Run(hd, detail, Scan([], None), pre + [header] + body)) == [Fill(detail, hd(header).value, body)]
  {
    LeadingLinesIgnored(hd, detail, pre);
    RunAppend(hd, detail, Scan([], None), pre, [header]);
    assert Run(hd, detail, Scan([], None), [header]) == Scan([], hd(header));
    RunAppend(hd, detail, Scan([], None), pre + [header], body);
    BodyFills(hd, detail, Scan([], hd(header)), body);
  }

  /** There is one record per header line, and when the detail rule keeps
      `key`, the k-th record has the `key` that the k-th header line gave it. */
  lemma {:induction false} RecordPerHeader<R, X>(hd: string -> Option<R>, detail: (R, string) -> R,
                                                 key: R -> X, lines: seq<string>)
    requires forall r, l :: key(detail(r, l)) == key(r)
    ensures var rs := Finish(Run(hd, detail, Scan([], None), lines));
            var hs := HeaderLines(hd, lines);
            |rs| == |hs| && forall k :: 0 <= k < |rs| ==> key(rs[k]) == key(hd(hs[k]).value)
    decreases |lines|
  {
    if lines != [] {
      var init, last := lines[..|lines| - 1], lines[|lines| - 1];
      RecordPerHeader(hd, detail, key, init);
      var st := Run(hd, detail, Scan([], None), init);
      var hs := HeaderLines(hd, init);
      if last != "" && hd(last).None? && st.current.Some? {
        var rs := Finish(st);
        var rs' := Finish(Step(hd, detail, st, last));
        assert rs' == st.done + [detail(st.current.value, last)];
        assert forall k :: 0 <= k < |rs'| ==> key(rs'[k]) == key(rs[k]);
      }
    }
  }

  /** With no text there are no records; the early return agrees with the loop. */
  lemma EmptyTextNoRecords<R>(hd: string -> Option<R>, detail: (R, string) -> R)
    ensures Records(hd, detail, "") == []
    ensures Finish(Run(hd, detail, Scan([], None), Split("", '\n'))) == []
  {
    SplitNone("", '\n');
    assert Split("", '\n') == [] + [""];
  }

  // ---------------------------------------------------------------------
  // parseSecurityVulnerabilities and parseStyleIssues

  datatype IssueType = Warning | Suggestion

  /** A vulnerability or a style issue: its kind (the severity, or the issue
      type), the description accumulated line by line, and the optional line
      number and fix. */
  datatype Entry<K> = Entry(kind: K, description: string, lineNumber: Option<nat>, fix: Option<string>)

  type Vulnerability = Entry<Level>
  type StyleIssue = Entry<IssueType>

  /** A line that mentions `line` without a number after it changes nothing. */
  predicate IsDescriptionLine(line: string) {
    !Mentions(line, "fix:") && !Mentions(line, "line")
  }

  /** A detail line of a vulnerability or a style issue: a `fix:` line sets
      the fix, from the text after the case-sensitive `fix:` (`''` when the
      line has it only in another case); a line that mentions `line` sets
      the line number when `line` is followed by digits; any other line is
      added to the description with a `\n`. */
  function Detail<K>(e: Entry<K>, line: string): (r: Entry<K>)
    ensures r.kind == e.kind
    ensures IsDescriptionLine(line) ==> r.description == e.description + line + "\n"
    ensures !IsDescriptionLine(line) ==> r.description == e.description
  {
    if Mentions(line, "fix:") then e.(fix := Some(TrimOr(SecondPiece(line, "fix:"), "")))
    else if Mentions(line, "line") then
      match FirstMatch(line, 0, LineNumberAt)
      case None => e
      case Some(n) => e.(lineNumber := Some(n))
    else e.(description := e.description + line + "\n")
  }

  /** The description lines of a block, each followed by `\n`. */
  function DescriptionText(body: seq<string>): string
    decreases |body|
  {
    if body == [] then ""
    else
      var last := body[|body| - 1];
      DescriptionText(body[..|body| - 1]) + (if last != "" && IsDescriptionLine(last) then last + "\n" else "")
  }

  /** A record keeps the kind its header gave it, and its description is its
      block's description lines, in order, each followed by `\n`. */
  lemma {:induction false} FillDescription<K>(e: Entry<K>, body: seq<string>)
    ensures Fill(Detail, e, body).kind == e.kind
    ensures Fill(Detail, e, body).description == e.description + DescriptionText(body)
    decreases |body|
  {
    if body != [] {
      FillDescription(e, body[..|body| - 1]);
    }
  }

  /** `high` wins over `medium`, and `medium` over `low`, case-insensitively. */
  function SeverityOf(line: string): (r: Level)
    ensures r == High <==> Mentions(line, "high")
    ensures r == Medium <==> !Mentions(line, "high") && Mentions(line, "medium")
  {
    if Mentions(line, "high") then High
    else if Mentions(line, "medium") then Medium
    else Low
  }

  /** A header of the security answer is a line that mentions `severity:`. */
  function SecurityHeader(line: string): (r: Option<Vulnerability>)
    ensures r.Some? <==> Mentions(line, "severity:")
    ensures r.Some? ==> r.value == Entry(SeverityOf(line), "", None, None)
  {
    if Mentions(line, "severity:") then Some(Entry(SeverityOf(line), "", None, None)) else None
  }

  /** A header of the style answer mentions `issue:` or `suggestion:`; it is
      a suggestion when it mentions `suggestion` at all, else a warning. */
  function StyleHeader(line: string): (r: Option<StyleIssue>)
    ensures r.Some? <==> Mentions(line, "issue:") || Mentions(line, "suggestion:")
    ensures r.Some? ==> r.value.description == "" && r.value.lineNumber.None? && r.value.fix.None?
    ensures r.Some? ==> (r.value.kind == Suggestion <==> Mentions(line, "suggestion"))
  {
    if Mentions(line, "issue:") || Mentions(line, "suggestion:") then
      Some(Entry(if Mentions(line, "suggestion") then Suggestion else Warning, "", None, None))
    else None
  }

  function SecurityVulnerabilities(text: string): seq<Vulnerability> {
    Records(SecurityHeader, Detail, text)
  }

  function StyleIssues(text: string): seq<StyleIssue> {
    Records(StyleHeader, Detail, text)
  }

  function Kind<K>(e: Entry<K>): K { e.kind }

  /** One vulnerability per non-empty line that mentions `severity:`, with
      the severity that line states. */
  lemma VulnerabilityPerSeverityLine(text: string)
    ensures var vs := SecurityVulnerabilities(text);
            var hs := HeaderLines(SecurityHeader, Split(text, '\n'));
            |vs| == |hs| && forall k :: 0 <= k < |vs| ==> vs[k].kind == SeverityOf(hs[k])
  {
    if text == "" {
      EmptyTextNoRecords(SecurityHeader, Detail);
    } else {
      RecordPerHeader(SecurityHeader, Detail, Kind, Split(text, '\n'));
    }
  }

  /** One style issue per non-empty line that mentions `issue:` or
      `suggestion:`, a suggestion exactly when that line mentions `suggestion`. */
  lemma IssuePerHeaderLine(text: string)
    ensures var xs := StyleIssues(text);
            var hs := HeaderLines(StyleHeader, Split(text, '\n'));
            |xs| == |hs| && forall k :: 0 <= k < |xs| ==> (xs[k].kind == Suggestion <==> Mentions(hs[k], "suggestion"))
  {
    if text == "" {
      EmptyTextNoRecords(StyleHeader, Detail);
    } else {
      RecordPerHeader(StyleHeader, Detail, Kind, Split(text, '\n'));
    }
  }

  /** A vulnerability's description: the lines before its header are
      ignored, and each description line after it is added with a `\n`. */
  lemma VulnerabilityDescription(pre: seq<string>, header: string, body: seq<string>)
    requires NoHeaders(SecurityHeader, pre) && NoHeaders(SecurityHeader, body)
    requires header != "" && Mentions(header, "severity:")
    ensures var vs := Finish(Run(SecurityHeader, Detail, Scan([], None), pre + [header] + body));
            |vs| == 1 && vs[0].kind == SeverityOf(header) && vs[0].description == DescriptionText(body)
  {
    var e: Vulnerability := Entry(SeverityOf(header), "", None, None);
    assert SecurityHeader(header) == Some(e);
    SingleBlock(SecurityHeader, Detail, pre, header, body);
    FillDescription(e, body);
  }

  /** `parseSecurityVulnerabilities`. */
  method ParseSecurityVulnerabilities(text: string) returns (vulnerabilities: seq<Vulnerability>)
    ensures vulnerabilities == SecurityVulnerabilities(text)
  {
    if text == "" {
      return [];
    }
    var lines := Split(text, '\n');
    vulnerabilities := [];
    var current: Option<Vulnerability> := None;
    for i := 0 to |lines|
      invariant Scan(vulnerabilities, current) == Run(SecurityHeader, Detail, Scan([], None), lines[..i])
    {
      var line := lines[i];
      assert lines[..i + 1][..i] == lines[..i];
      if line == "" {
        continue;
      }
      if Mentions(line, "severity:") {
        if current.Some? {
          vulnerabilities := vulnerabilities + [current.value];
        }
        current := Some(Entry(SeverityOf(line), "", None, None));
      } else if current.Some? {
        var vuln := current.value;
        if Mentions(line, "fix:") {
          vuln := vuln.(fix := Some(TrimOr(SecondPiece(line, "fix:"), "")));
        } else if Mentions(line, "line") {
          var lineMatch := FirstMatch(line, 0, LineNumberAt);
          if lineMatch.Some? {
            vuln := vuln.(lineNumber := Some(lineMatch.value));
          }
        } else {
          vuln := vuln.(description := vuln.description + line + "\n");
        }
        current := Some(vuln);
      }
    }
    assert lines[..|lines|] == lines;
    if current.Some? {
      vulnerabilities := vulnerabilities + [current.value];
    }
  }

  /** `parseStyleIssues`. */
  method ParseStyleIssues(text: string) returns (issues: seq<StyleIssue>)
    ensures issues == StyleIssues(text)
  {
    if text == "" {
      return [];
    }
    var lines := Split(text, '\n');
    issues := [];
    var current: Option<StyleIssue> := None;
    for i := 0 to |lines|
      invariant Scan(issues, current) == Run(StyleHeader, Detail, Scan([], None), lines[..i])
    {
      var line := lines[i];
      assert lines[..i + 1][..i] == lines[..i];
      if line == "" {
        continue;
      }
      if Mentions(line, "issue:") || Mentions(line, "suggestion:") {
        if current.Some? {
          issues := issues + [current.value];
        }
        current := Some(Entry(if Mentions(line, "suggestion") then Suggestion else Warning, "", None, None));
      } else if current.Some? {
        var issue := current.value;
        if Mentions(line, "fix:") {
          issue := issue.(fix := Some(TrimOr(SecondPiece(line, "fix:"), "")));
        } else if Mentions(line, "line") {
          var lineMatch := FirstMatch(line, 0, LineNumberAt);
          if lineMatch.Some? {
            issue := issue.(lineNumber := Some(lineMatch.value));
          }
        } else {
          issue := issue.(description := issue.description + line + "\n");
        }
        current := Some(issue);
      }
    }
    assert lines[..|lines|] == lines;
    if current.Some? {
      issues := issues + [current.value];
    }
  }

  // ---------------------------------------------------------------------
  // parseFunctionDocumentation

  datatype Parameter = Parameter(name: string, paramType: string, description: string)

  /** A documented function: its name, the description accumulated line by
      line, its parameters in order, and the optional return type and text. */
  datatype FunctionDoc = FunctionDoc(name: string, description: string, parameters: seq<Parameter>,
                                     returnType: Option<string>, returnDescription: Option<string>)

  /** The word after the first `function` or `method` that has one, or `'Unknown'`. */
  function FunctionName(line: string): (r: string)
    ensures r != ""
    ensures FirstMatch(line, 0, FunctionNameAt).None? ==> r == "Unknown"
    ensures FirstMatch(line, 0, FunctionNameAt).Some? ==> forall k :: 0 <= k < |r| ==> IsWordChar(r[k])
  {
    match FirstMatch(line, 0, FunctionNameAt)
    case None => "Unknown"
    case Some(w) => w
  }

  /** The name is the word after the keyword, in its own case. */
  lemma FunctionNameRead()
    ensures FunctionName("Function add(a)") == "add"
  {
    var s := "Function add(a)";
    assert KeyAt(s, "function", 0) by { assert ToLower(s)[0..8] == "function"; }
    assert IsSpace(s[8]) && !IsSpace(s[9]);
    assert SpaceRunEnd(s, 8) == 9 by { assert SpaceRunEnd(s, 9) == 9; }
    assert IsWordChar(s[9]) && IsWordChar(s[10]) && IsWordChar(s[11]) && !IsWordChar(s[12]);
    assert WordRunEnd(s, 9) == 12 by {
      assert WordRunEnd(s, 12) == 12;
    }
    assert s[9..12] == "add";
    assert FunctionNameAt(s, 0) == Some("add");
  }

  /** A keyword with no name after it names no function. */
  lemma KeywordAloneUnnamed()
    ensures FunctionName("method") == "Unknown"
  {
    var t := "method";
    assert KeyAt(t, "method", 0) by { assert ToLower(t)[0..6] == "method"; }
    assert !KeyAt(t, "function", 0);
    assert FunctionNameAt(t, 0) == None;
    forall j | 1 <= j <= |t|
      ensures FunctionNameAt(t, j) == None
    {
      assert !KeyAt(t, "function", j) && !KeyAt(t, "method", j);
    }
  }

  /** A header of the documentation answer mentions `function` or `method`. */
  function FunctionHeader(line: string): (r: Option<FunctionDoc>)
    ensures r.Some? <==> Mentions(line, "function") || Mentions(line, "method")
    ensures r.Some? ==> r.value == FunctionDoc(FunctionName(line), "", [], None, None)
  {
    if Mentions(line, "function") || Mentions(line, "method") then
      Some(FunctionDoc(FunctionName(line), "", [], None, None))
    else None
  }

  /** The parameter a `parameter:` line describes, when the line matches
      the parameter pattern. */
  function LineParameter(line: string): (r: seq<Parameter>)
    ensures |r| <= 1
    ensures |r| == 1 <==> Mentions(line, "parameter:") && FirstMatch(line, 0, ParameterAt).Some?
  {
    if Mentions(line, "parameter:") then
      match FirstMatch(line, 0, ParameterAt)
      case None => []
      case Some(m) => [Parameter(m.0, m.1, m.2)]
    else []
  }

  /** A detail line of a documented function: a `parameter:` line adds the
      parameter it describes, a `returns:` line sets the return type and
      text, when they match their patterns; any other line is added to the
      description with a `\n`. */
  function DocDetail(f: FunctionDoc, line: string): (r: FunctionDoc)
    ensures r.name == f.name
    ensures r.parameters == f.parameters + LineParameter(line)
  {
    if Mentions(line, "parameter:") then f.(parameters := f.parameters + LineParameter(line))
    else if Mentions(line, "returns:") then
      match FirstMatch(line, 0, ReturnsAt)
      case None => f
      case Some(m) => f.(returnType := Some(m.0), returnDescription := Some(m.1))
    else f.(description := f.description + line + "\n")
  }

  function FunctionDocs(text: string): seq<FunctionDoc> {
    Records(FunctionHeader, DocDetail, text)
  }

  function Name(f: FunctionDoc): string { f.name }

  /** One documented function per non-empty line that mentions `function`
      or `method`, named by the word that follows the keyword on that line. */
  lemma FunctionPerHeaderLine(text: string)
    ensures var fs := FunctionDocs(text);
            var hs := HeaderLines(FunctionHeader, Split(text, '\n'));
            |fs| == |hs| && forall k :: 0 <= k < |fs| ==> fs[k].name == FunctionName(hs[k])
  {
    if text == "" {
      EmptyTextNoRecords(FunctionHeader, DocDetail);
    } else {
      RecordPerHeader(FunctionHeader, DocDetail, Name, Split(text, '\n'));
    }
  }

  /** The parameter lines of a block whose pattern matches, in order. */
  function ParametersOf(body: seq<string>): seq<Parameter>
    decreases |body|
  {
    if body == [] then []
    else
      var last := body[|body| - 1];
      ParametersOf(body[..|body| - 1]) + (if last != "" then LineParameter(last) else [])
  }

  /** A function's parameters are those of the parameter lines of its block, in order. */
  lemma {:induction false} FillParameters(f: FunctionDoc, body: seq<string>)
    ensures Fill(DocDetail, f, body).parameters == f.parameters + ParametersOf(body)
    decreases |body|
  {
    if body != [] {
      FillParameters(f, body[..|body| - 1]);
    }
  }

  /** `parseFunctionDocumentation`. */
  method ParseFunctionDocumentation(text: string) returns (functions: seq<FunctionDoc>)
    ensures functions == FunctionDocs(text)
  {
    if text == "" {
      return [];
    }
    var lines := Split(text, '\n');
    functions := [];
    var current: Option<FunctionDoc> := None;
    for i := 0 to |lines|
      invariant Scan(functions, current) == Run(FunctionHeader, DocDetail, Scan([], None), lines[..i])
    {
      var line := lines[i];
      assert lines[..i + 1][..i] == lines[..i];
      ghost var next := Step(FunctionHeader, DocDetail, Scan(functions, current), line);
      assert Run(FunctionHeader, DocDetail, Scan([], None), lines[..i + 1]) == next;
      if line == "" {
        continue;
      }
      if Mentions(line, "function") || Mentions(line, "method") {
        if current.Some? {
          functions := functions + [current.value];
        }
        var nameMatch := FirstMatch(line, 0, FunctionNameAt);
        current := Some(FunctionDoc(if nameMatch.Some? then nameMatch.value else "Unknown", "", [], None, None));
        assert current == FunctionHeader(line);
      } else if current.Some? {
        var func := current.value;
        assert FunctionHeader(line).None?;
        if Mentions(line, "parameter:") {
          var paramMatch := FirstMatch(line, 0, ParameterAt);
          if paramMatch.Some? {
            func := func.(parameters := func.parameters
                                      + [Parameter(paramMatch.value.0, paramMatch.value.1, paramMatch.value.2)]);
          }
          assert func == DocDetail(current.value, line);
        } else if Mentions(line, "returns:") {
          var returnMatch := FirstMatch(line, 0, ReturnsAt);
          if returnMatch.Some? {
            func := func.(returnType := Some(returnMatch.value.0), returnDescription := Some(returnMatch.value.1));
          }
          assert func == DocDetail(current.value, line);
        } else {
          func := func.(description := func.description + line + "\n");
        }
        current := Some(func);
      }
      assert Scan(functions, current) == next;
    }
    assert lines[..|lines|] == lines;
    if current.Some? {
      functions := functions + [current.value];
    }
  }
}
