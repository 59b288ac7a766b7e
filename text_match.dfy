/** Hand-written matchers for the regular expressions that the analysis
    parsers apply to one line of the model's answer. `XAt(s, j)` is the
    match of the pattern when it starts exactly at `j`, with the choices a
    backtracking engine makes (greedy repetitions, alternatives in order),
    and `FirstMatch` looks for the leftmost start, as `String.prototype.match`
    does for a pattern without the `g` flag. The `i` flag is applied to the
    ASCII letters; a captured group keeps the case it has in the line. */
module TextMatch {
  import opened Wrappers
  import opened Strings

  /** The levels `high`, `medium` and `low` of a severity or an impact. */
  datatype Level = High | Medium | Low

  /** The pattern's literal `lit`, written in lower case, matched
      case-insensitively at `j`. */
  predicate KeyAt(s: string, lit: string, j: nat) {
    OccursAt(ToLower(s), lit, j)
  }

  /** `s.toLowerCase().includes(key)` for a key written in lower case,
      stated start by start; `MentionsIsIncludes` shows it is `ContainsCI`. */
  predicate Mentions(s: string, key: string)
    decreases |s|
  {
    |key| <= |s| && (ToLower(s[..|key|]) == key || Mentions(s[1..], key))
  }

  lemma {:induction false} MentionsAt(s: string, key: string)
    ensures Mentions(s, key) <==> exists j :: OccursAt(ToLower(s), key, j)
    decreases |s|
  {
    var t := ToLower(s);
    if |key| <= |s| {
      assert t[..|key|] == ToLower(s[..|key|]);
      if Mentions(s, key) {
        if ToLower(s[..|key|]) == key {
          assert OccursAt(t, key, 0);
        } else {
          MentionsAt(s[1..], key);
          var j :| OccursAt(ToLower(s[1..]), key, j);
          assert ToLower(s[1..]) == t[1..];
          assert t[1..][j..j + |key|] == t[j + 1..j + 1 + |key|];
          assert OccursAt(t, key, j + 1);
        }
      }
      if exists j :: OccursAt(t, key, j) {
        var j :| OccursAt(t, key, j);
        if j > 0 {
          MentionsAt(s[1..], key);
          assert ToLower(s[1..]) == t[1..];
          assert t[1..][j - 1..j - 1 + |key|] == t[j..j + |key|];
          assert OccursAt(ToLower(s[1..]), key, j - 1);
        }
      }
    }
  }

  /** The position-by-position statement and `indexOf` agree. */
  lemma MentionsIsIncludes(s: string, key: string)
    ensures Mentions(s, key) <==> ContainsCI(s, key)
  {
    MentionsAt(s, key);
  }

  /** The end of the run of white space (`\s*`) that starts at `i`. */
  function SpaceRunEnd(s: string, i: nat): (j: nat)
    requires i <= |s|
    decreases |s| - i
    ensures i <= j <= |s|
    ensures forall k :: i <= k < j ==> IsSpace(s[k])
    ensures j == |s| || !IsSpace(s[j])
  {
    if i < |s| && IsSpace(s[i]) then SpaceRunEnd(s, i + 1) else i
  }

  /** The end of the run of word characters (`\w*`) that starts at `i`. */
  function WordRunEnd(s: string, i: nat): (j: nat)
    requires i <= |s|
    decreases |s| - i
    ensures i <= j <= |s|
    ensures forall k :: i <= k < j ==> IsWordChar(s[k])
    ensures j == |s| || !IsWordChar(s[j])
  {
    if i < |s| && IsWordChar(s[i]) then WordRunEnd(s, i + 1) else i
  }

  /** The first line terminator at or after `i`, or the end of the text. */
  function LineEnd(s: string, i: nat): (j: nat)
    requires i <= |s|
    decreases |s| - i
    ensures i <= j <= |s|
    ensures forall k :: i <= k < j ==> !IsLineTerminator(s[k])
    ensures j == |s| || IsLineTerminator(s[j])
  {
    if i < |s| && !IsLineTerminator(s[i]) then LineEnd(s, i + 1) else i
  }

  /** The last position in `[lo, hi)` that holds no line terminator. */
  function LastNonTerminator(s: string, lo: nat, hi: nat): (r: Option<nat>)
    requires lo <= hi <= |s|
    decreases hi
    ensures r.Some? ==> lo <= r.value < hi && !IsLineTerminator(s[r.value])
                        && forall k :: r.value < k < hi ==> IsLineTerminator(s[k])
    ensures r.None? ==> forall k :: lo <= k < hi ==> IsLineTerminator(s[k])
  {
    if hi == lo then None
    else if !IsLineTerminator(s[hi - 1]) then Some(hi - 1)
    else LastNonTerminator(s, lo, hi - 1)
  }

  /** The leftmost start at or after `from` where `at` matches, and that match. */
  function FirstMatch<T(==)>(s: string, from: nat, at: (string, nat) -> Option<T>): (r: Option<T>)
    decreases |s| + 1 - from
    ensures r.Some? ==> exists j :: from <= j <= |s| && at(s, j) == r
                                    && forall k :: from <= k < j ==> at(s, k).None?
    ensures r.None? ==> forall j :: from <= j <= |s| ==> at(s, j).None?
  {
    if from > |s| then None
    else if at(s, from).Some? then at(s, from)
    else FirstMatch(s, from + 1, at)
  }

  /** The match `FirstMatch` reports is the one at the leftmost start that
      matches, whichever start that is. */
  lemma FirstMatchLeftmost<T>(s: string, at: (string, nat) -> Option<T>, j: nat)
    requires j <= |s| && at(s, j).Some? && forall k :: 0 <= k < j ==> at(s, k).None?
    ensures FirstMatch(s, 0, at) == at(s, j)
  {
    var r := FirstMatch(s, 0, at);
    assert r.Some?;
    var j0 :| 0 <= j0 <= |s| && at(s, j0) == r && forall k :: 0 <= k < j0 ==> at(s, k).None?;
    assert !(j < j0) && !(j0 < j);
  }

  /** `\s*(.+)` at `p`: white space, then the rest of the line. When only
      white space is left, the engine gives one character of it back to
      `.+`, the last one that is not a line terminator. */
  function RestAt(s: string, p: nat): (r: Option<string>)
    requires p <= |s|
    ensures r.Some? ==> |r.value| > 0
                        && forall k :: 0 <= k < |r.value| ==> !IsLineTerminator(r.value[k])
    ensures r.None? <==> forall k :: p <= k < |s| ==> IsLineTerminator(s[k])
  {
    var m := SpaceRunEnd(s, p);
    if m < |s| then
      assert !IsLineTerminator(s[m]);
      Some(s[m..LineEnd(s, m)])
    else
      match LastNonTerminator(s, p, m)
      case None => None
      case Some(q) => Some(s[q..q + 1])
  }

  /** `/score:?\s*(\d+)/i` at `j`, with its digits read by `parseInt`. */
  function ScoreAt(s: string, j: nat): Option<nat> {
    if !KeyAt(s, "score", j) then None
    else
      var k := if j + 5 < |s| && s[j + 5] == ':' then j + 6 else j + 5;
      var d := SpaceRunEnd(s, k);
      var e := DigitRunEnd(s, d);
      if d < e then Some(DigitsValue(s[d..e])) else None
  }

  /** `/line\s*(\d+)/i` at `j`, with its digits read by `parseInt`. */
  function LineNumberAt(s: string, j: nat): Option<nat> {
    if !KeyAt(s, "line", j) then None
    else
      var d := SpaceRunEnd(s, j + 4);
      var e := DigitRunEnd(s, d);
      if d < e then Some(DigitsValue(s[d..e])) else None
  }

  /** Where the keyword of `(?:function|method)` ends, when one starts at `j`. */
  function KeywordEnd(s: string, j: nat): (r: Option<nat>)
    ensures r.Some? ==> j < r.value <= |s|
  {
    if KeyAt(s, "function", j) then Some(j + 8)
    else if KeyAt(s, "method", j) then Some(j + 6)
    else None
  }

  /** `/(?:function|method)\s+(\w+)/i` at `j`: the word after the keyword. */
  function FunctionNameAt(s: string, j: nat): (r: Option<string>)
    ensures r.Some? ==> r.value != "" && forall k :: 0 <= k < |r.value| ==> IsWordChar(r.value[k])
  {
    match KeywordEnd(s, j)
    case None => None
    case Some(k) =>
      var w := SpaceRunEnd(s, k);
      var e := WordRunEnd(s, w);
      if k < w && w < e then Some(s[w..e]) else None
  }

  /** `/parameter:\s*(\w+)\s*\((\w+)\)\s*:\s*(.+)/i` at `j`: the name, the
      type and the description. */
  function ParameterAt(s: string, j: nat): Option<(string, string, string)> {
    if !KeyAt(s, "parameter:", j) then None
    else
      var a := SpaceRunEnd(s, j + 10);
      var b := WordRunEnd(s, a);
      var c := SpaceRunEnd(s, b);
      if a == b || c == |s| || s[c] != '(' then None
      else
        var d := WordRunEnd(s, c + 1);
        if d == c + 1 || d == |s| || s[d] != ')' then None
        else
          var e := SpaceRunEnd(s, d + 1);
          if e == |s| || s[e] != ':' then None
          else
            match RestAt(s, e + 1)
            case None => None
            case Some(rest) => Some((s[a..b], s[c + 1..d], rest))
  }

  /** `/returns:\s*(\w+)\s*:\s*(.+)/i` at `j`: the type and the description. */
  function ReturnsAt(s: string, j: nat): Option<(string, string)> {
    if !KeyAt(s, "returns:", j) then None
    else
      var a := SpaceRunEnd(s, j + 8);
      var b := WordRunEnd(s, a);
      var c := SpaceRunEnd(s, b);
      if a == b || c == |s| || s[c] != ':' then None
      else
        match RestAt(s, c + 1)
        case None => None
        case Some(rest) => Some((s[a..b], rest))
  }

  /** `/lines (\d+)-(\d+)/i` at `j`, with both numbers read by `parseInt`. */
  function BlockLinesAt(s: string, j: nat): Option<(nat, nat)> {
    if !KeyAt(s, "lines ", j) then None
    else
      var b := DigitRunEnd(s, j + 6);
      if b == j + 6 || b == |s| || s[b] != '-' then None
      else
        var c := DigitRunEnd(s, b + 1);
        if c == b + 1 then None else Some((DigitsValue(s[j + 6..b]), DigitsValue(s[b + 1..c])))
  }

  /** `/impact:\s*(high|medium|low)/i` at `j`, its group lower-cased. */
  function ImpactAt(s: string, j: nat): Option<Level> {
    if !KeyAt(s, "impact:", j) then None
    else
      var a := SpaceRunEnd(s, j + 7);
      if KeyAt(s, "high", a) then Some(High)
      else if KeyAt(s, "medium", a) then Some(Medium)
      else if KeyAt(s, "low", a) then Some(Low)
      else None
  }
}
