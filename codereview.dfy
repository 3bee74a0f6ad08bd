/** The code-review workflow's tools. Each tool reads a workflow state and
    returns a dict, or raises when a value in the state has the wrong type.
    The pure functions below are the tools as the registry holds them. The
    two tools that loop over lines or issues also come as methods with those
    loops, proved equal to the functions. */
module CodeReview {
  import opened Values
  import opened Text
  import opened Tools

  /** `state.get("code", "")` when it is a string. Any other value makes
      the tool's first string method call raise. */
  function CodeOf(s: State): Option<string> {
    match Lookup(s, "code", Str(""))
    case Str(c) => Some(c)
    case _ => None
  }

  /** Python strings as values. */
  function Strs(texts: seq<string>): (r: seq<Value>)
    ensures |r| == |texts| && forall k :: 0 <= k < |r| ==> r[k] == Str(texts[k])
  {
    seq(|texts|, k requires 0 <= k < |texts| => Str(texts[k]))
  }

  /** `code.split("\n")`. */
  function Lines(code: string): seq<string> {
    Split(code, "\n")
  }

  /** `len(code.split("\n"))`: one more than the number of newlines. */
  function LineCount(code: string): (n: nat)
    ensures n == CountChar(code, '\n') + 1
  {
    SplitCount(code, '\n');
    |Lines(code)|
  }

  // ---------------------------------------------------------------------
  // extract_functions

  /** `line.strip().startswith("def ")`. */
  predicate IsDefLine(line: string) {
    StartsWith(Strip(line), "def ")
  }

  /** On a def line, the first "def " in the line is the one that opens the
      stripped line. */
  lemma DefLineStart(line: string)
    requires IsDefLine(line)
    ensures IndexOf(line, "def ") == Some(SkipSpace(line, 0))
  {
    var lo := SkipSpace(line, 0);
    var hi := TrimEnd(line, lo, |line|);
    assert OccursAt(line, "def ", lo) by {
      assert Strip(line) == line[lo..hi];
      assert line[lo..lo + 4] == line[lo..hi][..4];
    }
    SkipSpaceStops(line, 0);
    forall k: nat | k < lo
      ensures !OccursAt(line, "def ", k)
    {
      if k + 4 <= |line| {
        assert line[k..k + 4][0] == line[k];
      }
    }
    FirstOccurrence(line, "def ", lo);
  }

  /** A line without the letter `d` is not a def line. */
  lemma WithoutD(line: string)
    requires 'd' !in line
    ensures !IsDefLine(line)
  {
    var lo := SkipSpace(line, 0);
    var r := Strip(line);
    assert r == line[lo..TrimEnd(line, lo, |line|)];
    if |r| >= 4 {
      assert r[..4][0] == line[lo];
    }
  }

  /** `line.split("def ")[1].split("(")[0]` for a def line. */
  function FunctionName(line: string): string
    requires IsDefLine(line)
  {
    DefLineStart(line);
    Split(Split(line, "def ")[1], "(")[0]
  }

  /** The first piece of `piece.split("(")` runs up to the first "(". */
  lemma UpToParen(piece: string)
    ensures var n := Split(piece, "(")[0];
      && |n| <= |piece| && n == piece[..|n|] && '(' !in n
      && (|n| == |piece| || piece[|n|] == '(')
  {
    PieceFrom(piece, "(", 0);
    var n := Split(piece, "(")[0];
    forall q | 0 <= q < |n|
      ensures n[q] != '('
    {
      OccursAtChar(piece, '(', q);
    }
    if |n| < |piece| {
      OccursAtChar(piece, '(', |n|);
    }
  }

  /** `FunctionName` is the first piece of the second piece. */
  lemma NameOfPieces(line: string)
    requires IsDefLine(line)
    ensures |Split(line, "def ")| >= 2
    ensures FunctionName(line) == Split(Split(line, "def ")[1], "(")[0]
  {
    DefLineStart(line);
  }

  /** After the first "def " of a line, at `j`, the expression
      `line.split("def ")[1].split("(")[0]` takes the longest stretch holding
      neither "(" nor another "def ". */
  lemma StretchAfterDef(line: string, j: nat)
    requires IndexOf(line, "def ") == Some(j)
    ensures |Split(line, "def ")| >= 2
    ensures var i := j + 4; var n := Split(Split(line, "def ")[1], "(")[0];
      && i + |n| <= |line| && n == line[i..i + |n|]
      && '(' !in n && !Contains(n, "def ")
      && (i + |n| == |line| || line[i + |n|] == '(' || OccursAt(line, "def ", i + |n|))
  {
    SecondPiece(line, "def ", j);
    var piece := Split(line, "def ")[1];
    UpToParen(piece);
    StretchInLine(line, piece, Split(piece, "(")[0], j + 4);
  }

  /** The name of a def line is the longest stretch after its opening "def "
      holding neither "(" nor another "def ": it stops at the first "(",
      at the next "def " or at the end of the line. */
  lemma FunctionNameIsStretch(line: string)
    requires IsDefLine(line)
    ensures var i := SkipSpace(line, 0) + 4; var n := FunctionName(line);
      && i + |n| <= |line| && n == line[i..i + |n|]
      && '(' !in n && !Contains(n, "def ")
      && (i + |n| == |line| || line[i + |n|] == '(' || OccursAt(line, "def ", i + |n|))
  {
    DefLineStart(line);
    NameOfPieces(line);
    StretchAfterDef(line, SkipSpace(line, 0));
  }

  /** A prefix `n` of a stretch `piece` of `line` that starts at `i`. */
  lemma StretchInLine(line: string, piece: string, n: string, i: nat)
    requires i + |piece| <= |line| && piece == line[i..i + |piece|] && !Contains(piece, "def ")
    requires i + |piece| == |line| || OccursAt(line, "def ", i + |piece|)
    requires |n| <= |piece| && n == piece[..|n|] && (|n| == |piece| || piece[|n|] == '(')
    ensures i + |n| <= |line| && n == line[i..i + |n|] && !Contains(n, "def ")
    ensures i + |n| == |line| || line[i + |n|] == '(' || OccursAt(line, "def ", i + |n|)
  {
    assert n == line[i..i + |n|];
    PrefixLacks(piece, n, "def ");
    if |n| < |piece| {
      assert line[i + |n|] == piece[|n|];
    }
  }

  /** The positions of the def lines, in order. */
  function DefLines(lines: seq<string>): (r: seq<nat>)
    ensures forall k :: 0 <= k < |r| ==> r[k] < |lines| && IsDefLine(lines[r[k]])
  {
    if lines == [] then []
    else
      var init := lines[..|lines| - 1];
      var r := DefLines(init);
      assert forall k :: 0 <= k < |r| ==> lines[r[k]] == init[r[k]];
      r + (if IsDefLine(lines[|lines| - 1]) then [|lines| - 1] else [])
  }

  /** `DefLines` lists every def line once, in increasing order. */
  lemma {:induction false} DefLinesExact(lines: seq<string>)
    ensures var r := DefLines(lines);
      && (forall a, b :: 0 <= a < b < |r| ==> r[a] < r[b])
      && (forall j :: 0 <= j < |lines| ==> (IsDefLine(lines[j]) <==> j in r))
  {
    if lines != [] {
      var init := lines[..|lines| - 1];
      DefLinesExact(init);
      assert forall j :: 0 <= j < |init| ==> lines[j] == init[j];
    }
  }

  /** The names `extract_functions` collects from `lines`, scanning them in
      order. */
  function FunctionNames(lines: seq<string>): seq<string> {
    if lines == [] then []
    else
      var last := lines[|lines| - 1];
      FunctionNames(lines[..|lines| - 1]) + (if IsDefLine(last) then [FunctionName(last)] else [])
  }

  /** One name per def line, in line order. */
  lemma {:induction false} NamesOfDefLines(lines: seq<string>)
    ensures var names := FunctionNames(lines); var at := DefLines(lines);
      && |names| == |at|
      && forall k :: 0 <= k < |names| ==> names[k] == FunctionName(lines[at[k]])
  {
    if lines != [] {
      var init := lines[..|lines| - 1];
      NamesOfDefLines(init);
      assert forall k :: 0 <= k < |DefLines(init)| ==> lines[DefLines(init)[k]] == init[DefLines(init)[k]];
    }
  }

  /** `extract_functions`: the names of the def lines of the code under
      `functions`, and their number under `function_count`. */
  function ExtractFunctionsTool(s: State): (r: ToolResult)
    ensures r.Raised? <==> CodeOf(s).None?
    ensures r.Returned? ==>
      var lines := Lines(CodeOf(s).value);
      && r.m.Keys == {"functions", "function_count"}
      && r.m["functions"] == List(Strs(FunctionNames(lines)))
      && r.m["function_count"] == Int(|r.m["functions"].items|)
  {
    match CodeOf(s)
    case None => Raised
    case Some(code) =>
      var functions := FunctionNames(Lines(code));
      Returned(map["functions" := List(Strs(functions)), "function_count" := Int(|functions|)])
  }

  /** `extract_functions` with its loop over the lines. */
  method ExtractFunctions(s: State) returns (r: ToolResult)
    ensures r == ExtractFunctionsTool(s)
  {
    var code := Lookup(s, "code", Str(""));
    if !code.Str? {
      return Raised;
    }
    var lines := Split(code.s, "\n");
    var functions: seq<string> := [];
    var i := 0;
    while i < |lines|
      invariant 0 <= i <= |lines|
      invariant functions == FunctionNames(lines[..i])
    {
      if IsDefLine(lines[i]) {
        functions := functions + [FunctionName(lines[i])];
      }
      assert lines[..i + 1][..i] == lines[..i];
      i := i + 1;
    }
    assert lines[..|lines|] == lines;
    return Returned(map["functions" := List(Strs(functions)), "function_count" := Int(|functions|)]);
  }

  /** The only newline of the snippet is at index 8. */
  lemma SnippetNewline(code: string)
    requires code == "def f():\n    pass"
    ensures IndexFrom(code, "\n", 0) == Some(8) && IndexFrom(code, "\n", 9) == None
  {
    IndexFromFinds(code, "\n", 0);
    IndexFromFinds(code, "\n", 9);
    forall k: nat | k < 8
      ensures !OccursAt(code, "\n", k)
    {
      OccursAtChar(code, '\n', k);
    }
    OccursAtChar(code, '\n', 8);
    forall k: nat | 9 <= k < |code|
      ensures !OccursAt(code, "\n", k)
    {
      OccursAtChar(code, '\n', k);
    }
  }

  /** The lines of the snippet. */
  lemma SnippetLines(code: string)
    requires code == "def f():\n    pass"
    ensures Lines(code) == ["def f():", "    pass"]
  {
    SnippetNewline(code);
    assert SplitFrom(code, "\n", 0) == [code[0..8]] + SplitFrom(code, "\n", 9);
    assert SplitFrom(code, "\n", 9) == [code[9..]];
    assert code[0..8] == "def f():";
    assert code[9..] == "    pass";
  }

  /** The name on the line `def f():`. */
  lemma SnippetName(line: string)
    requires line == "def f():"
    ensures IsDefLine(line) && FunctionName(line) == "f"
  {
    assert SkipSpace(line, 0) == 0;
    assert TrimEnd(line, 0, |line|) == |line|;
    assert IsDefLine(line);
    FunctionNameIsStretch(line);
    var n := FunctionName(line);
    assert |n| >= 1 by {
      assert line[4..8] != "def ";
    }
    assert |n| < 2 by {
      assert line[5] == '(';
      assert forall q :: 0 <= q < |n| ==> n[q] == line[4 + q];
    }
  }

  /** Two lines of which only the first is a def line. */
  lemma NamesOfTwoLines(lines: seq<string>)
    requires |lines| == 2 && IsDefLine(lines[0]) && !IsDefLine(lines[1])
    ensures FunctionNames(lines) == [FunctionName(lines[0])]
  {
    var first := lines[..1];
    assert first[..0] == [] && first[0] == lines[0];
    assert FunctionNames(first) == [FunctionName(lines[0])];
    assert lines[..|lines| - 1] == first;
  }

  /** The names found in the snippet. */
  lemma SnippetNames(code: string)
    requires code == "def f():\n    pass"
    ensures FunctionNames(Lines(code)) == ["f"]
  {
    var lines := Lines(code);
    SnippetLines(code);
    SnippetName(lines[0]);
    assert 'd' !in lines[1];
    WithoutD(lines[1]);
    NamesOfTwoLines(lines);
  }

  /** A one-function snippet yields that function's name. */
  lemma ExtractOneFunction(s: State)
    requires s == map["code" := Str("def f():\n    pass")]
    ensures ExtractFunctionsTool(s) ==
      Returned(map["functions" := List([Str("f")]), "function_count" := Int(1)])
  {
    var code := s["code"].s;
    assert CodeOf(s) == Some(code);
    SnippetNames(code);
    var names := FunctionNames(Lines(code));
    assert Strs(names) == [Str("f")];
  }

  // ---------------------------------------------------------------------
  // check_complexity

  /** `check_complexity`: the number of lines under `lines_of_code` and
      `min(lines / 10, 10)` under `complexity_score`. Python's `min` keeps
      its first argument on a tie, so 100 lines give the float `10.0`. */
  function CheckComplexityTool(s: State): (r: ToolResult)
    ensures r.Raised? <==> CodeOf(s).None?
    ensures r.Returned? ==>
      var lines := CountChar(CodeOf(s).value, '\n') + 1;
      && r.m.Keys == {"complexity_score", "lines_of_code"}
      && r.m["lines_of_code"] == Int(lines)
      && (lines <= 100 ==> r.m["complexity_score"] == Num(lines as real / 10.0))
      && (lines > 100 ==> r.m["complexity_score"] == Int(10))
  {
    match CodeOf(s)
    case None => Raised
    case Some(code) =>
      var lines := LineCount(code);
      var ratio := lines as real / 10.0;
      var score := if 10.0 < ratio then Int(10) else Num(ratio);
      Returned(map["complexity_score" := score, "lines_of_code" := Int(lines)])
  }

  // ---------------------------------------------------------------------
  // detect_issues

  const TodoIssue := "Contains TODO comments"
  const PrintIssue := "Contains print statements"
  const LongIssue := "File too long (>100 lines)"

  /** Where an issue stands in the order `detect_issues` checks them. */
  function Rank(issue: string): nat {
    if issue == TodoIssue then 0 else if issue == PrintIssue then 1 else 2
  }

  /** The issues `detect_issues` reports for `code`. */
  function DetectIssues(code: string): (r: seq<string>)
    ensures |r| <= 3
    ensures forall k :: 0 <= k < |r| ==> r[k] in {TodoIssue, PrintIssue, LongIssue}
    ensures forall a, b :: 0 <= a < b < |r| ==> Rank(r[a]) < Rank(r[b])
    ensures TodoIssue in r <==> Contains(code, "TODO")
    ensures PrintIssue in r <==> Contains(code, "print(")
    ensures LongIssue in r <==> CountChar(code, '\n') + 1 > 100
  {
    (if Contains(code, "TODO") then [TodoIssue] else [])
    + (if Contains(code, "print(") then [PrintIssue] else [])
    + (if LineCount(code) > 100 then [LongIssue] else [])
  }

  /** `detect_issues`: the issues under `issues` and their number under
      `issue_count`. */
  function DetectIssuesTool(s: State): (r: ToolResult)
    ensures r.Raised? <==> CodeOf(s).None?
    ensures r.Returned? ==>
      && r.m.Keys == {"issues", "issue_count"}
      && r.m["issues"] == List(Strs(DetectIssues(CodeOf(s).value)))
      && r.m["issue_count"] == Int(|r.m["issues"].items|)
  {
    match CodeOf(s)
    case None => Raised
    case Some(code) =>
      var issues := DetectIssues(code);
      Returned(map["issues" := List(Strs(issues)), "issue_count" := Int(|issues|)])
  }

  /** `detect_issues` reports a long file exactly when `check_complexity`
      counts more than 100 lines. */
  lemma LongIssueAgreesWithLineCount(s: State)
    requires CodeOf(s).Some?
    ensures var d := DetectIssuesTool(s).m; var c := CheckComplexityTool(s).m;
      Str(LongIssue) in d["issues"].items <==> c["lines_of_code"].i > 100
  {
    var issues := DetectIssues(CodeOf(s).value);
    assert Str(LongIssue) in Strs(issues) <==> LongIssue in issues;
  }

  // ---------------------------------------------------------------------
  // suggest_improvements

  const TodoFix := "Complete TODO items before merging"
  const PrintFix := "Replace print with logging"
  const LongFix := "Split into smaller modules"

  /** `state.get("issues", [])` as the sequence a `for` loop walks: a list's
      items, or a string's characters. Any other value is not iterable. */
  function IssuesOf(s: State): Option<seq<Value>> {
    match Lookup(s, "issues", List([]))
    case List(items) => Some(items)
    case Str(t) => Some(seq(|t|, k requires 0 <= k < |t| => Str([t[k]])))
    case _ => None
  }

  /** `word in issue`, for the two kinds of issue `in` accepts: a substring
      test on a string, a membership test on a list. */
  predicate Mentions(issue: Value, word: string)
    requires issue.Str? || issue.List?
  {
    if issue.Str? then Contains(issue.s, word) else Str(word) in issue.items
  }

  /** What one pass of the loop appends for `issue`; `None` when `in` raises. */
  function SuggestionsFor(issue: Value): (r: Option<seq<string>>)
    ensures r.None? <==> !(issue.Str? || issue.List?)
    ensures r.Some? ==> |r.value| <= 3
  {
    if !(issue.Str? || issue.List?) then None
    else Some((if Mentions(issue, "TODO") then [TodoFix] else [])
      + (if Mentions(issue, "print") then [PrintFix] else [])
      + (if Mentions(issue, "too long") then [LongFix] else []))
  }

  /** The suggestions for `issues`, in order; `None` when one of them makes
      the loop raise. */
  function Suggestions(issues: seq<Value>): Option<seq<string>> {
    if issues == [] then Some([])
    else match (Suggestions(issues[..|issues| - 1]), SuggestionsFor(issues[|issues| - 1]))
      case (Some(a), Some(b)) => Some(a + b)
      case _ => None
  }

  /** The loop raises as soon as one issue is neither a string nor a list. */
  lemma {:induction false} SuggestionsRaise(issues: seq<Value>, i: nat)
    requires i <= |issues| && Suggestions(issues[..i]).None?
    ensures Suggestions(issues).None?
    decreases |issues| - i
  {
    if i < |issues| {
      assert issues[..i + 1][..i] == issues[..i];
      SuggestionsRaise(issues, i + 1);
    } else {
      assert issues[..i] == issues;
    }
  }

  /** `suggest_improvements`: the suggestions under `suggestions` and their
      number under `suggestion_count`. */
  function SuggestImprovementsTool(s: State): (r: ToolResult)
    ensures r.Raised? <==> IssuesOf(s).None? || Suggestions(IssuesOf(s).value).None?
    ensures r.Returned? ==>
      && r.m.Keys == {"suggestions", "suggestion_count"}
      && r.m["suggestions"] == List(Strs(Suggestions(IssuesOf(s).value).value))
      && r.m["suggestion_count"] == Int(|r.m["suggestions"].items|)
  {
    match IssuesOf(s)
    case None => Raised
    case Some(issues) =>
      match Suggestions(issues)
      case None => Raised
      case Some(suggestions) =>
        Returned(map["suggestions" := List(Strs(suggestions)), "suggestion_count" := Int(|suggestions|)])
  }

  /** `suggest_improvements` with its loop over the issues. */
  method SuggestImprovements(s: State) returns (r: ToolResult)
    ensures r == SuggestImprovementsTool(s)
  {
    var found := IssuesOf(s);
    if found.None? {
      return Raised;
    }
    var issues := found.value;
    var suggestions: seq<string> := [];
    var i := 0;
    while i < |issues|
      invariant 0 <= i <= |issues|
      invariant Suggestions(issues[..i]) == Some(suggestions)
    {
      var issue := issues[i];
      assert issues[..i + 1][..i] == issues[..i] && issues[..i + 1][i] == issue;
      if !(issue.Str? || issue.List?) {
        SuggestionsRaise(issues, i + 1);
        return Raised;
      }
      ghost var before := suggestions;
      if Mentions(issue, "TODO") {
        suggestions := suggestions + [TodoFix];
      }
      if Mentions(issue, "print") {
        suggestions := suggestions + [PrintFix];
      }
      if Mentions(issue, "too long") {
        suggestions := suggestions + [LongFix];
      }
      assert suggestions == before + SuggestionsFor(issue).value;
      i := i + 1;
    }
    assert issues[..|issues|] == issues;
    return Returned(map["suggestions" := List(Strs(suggestions)), "suggestion_count" := Int(|suggestions|)]);
  }

  /** The suggestion for each message `detect_issues` can report. */
  function FixFor(issue: string): string {
    if issue == TodoIssue then TodoFix else if issue == PrintIssue then PrintFix else LongFix
  }

  /** The suggestions for a string are fixed by which of the three words
      it contains. */
  lemma FixesByWords(issue: string, todo: bool, printing: bool, long: bool)
    requires Contains(issue, "TODO") == todo && Contains(issue, "print") == printing
    requires Contains(issue, "too long") == long
    ensures SuggestionsFor(Str(issue)) ==
      Some((if todo then [TodoFix] else []) + (if printing then [PrintFix] else []) + (if long then [LongFix] else []))
  {
    assert Mentions(Str(issue), "TODO") == todo;
    assert Mentions(Str(issue), "print") == printing;
    assert Mentions(Str(issue), "too long") == long;
  }

  /** The TODO message mentions "TODO" only. */
  lemma TodoIssueWords(issue: string)
    requires issue == TodoIssue
    ensures Contains(issue, "TODO") && !Contains(issue, "print") && !Contains(issue, "too long")
  {
    assert issue[9..13] == "TODO";
    OccurrenceContains(issue, "TODO", 9);
    MissingChar(issue, "print", 'p');
    MissingChar(issue, "too long", 'g');
  }

  /** The print message mentions "print" only. */
  lemma PrintIssueWords(issue: string)
    requires issue == PrintIssue
    ensures !Contains(issue, "TODO") && Contains(issue, "print") && !Contains(issue, "too long")
  {
    assert issue[9..14] == "print";
    OccurrenceContains(issue, "print", 9);
    MissingChar(issue, "TODO", 'T');
    MissingChar(issue, "too long", 'g');
  }

  /** The length message mentions "too long" only. */
  lemma LongIssueWords(issue: string)
    requires issue == LongIssue
    ensures !Contains(issue, "TODO") && !Contains(issue, "print") && Contains(issue, "too long")
  {
    assert issue[5..13] == "too long";
    OccurrenceContains(issue, "too long", 5);
    MissingChar(issue, "TODO", 'T');
    MissingChar(issue, "print", 'p');
  }

  /** Each message of `detect_issues` mentions exactly one of the words
      `suggest_improvements` looks for, so it gets exactly one suggestion. */
  lemma OneFixPerIssue(issue: string)
    requires issue in {TodoIssue, PrintIssue, LongIssue}
    ensures SuggestionsFor(Str(issue)) == Some([FixFor(issue)])
  {
    var e: seq<string> := [];
    if issue == TodoIssue {
      TodoIssueWords(issue);
      FixesByWords(issue, true, false, false);
      assert [TodoFix] + e + e == [TodoFix];
    } else if issue == PrintIssue {
      PrintIssueWords(issue);
      FixesByWords(issue, false, true, false);
      assert e + [PrintFix] + e == [PrintFix];
    } else {
      LongIssueWords(issue);
      FixesByWords(issue, false, false, true);
      assert e + e + [LongFix] == [LongFix];
    }
  }

  /** Issues that each get one suggestion get them in order. */
  lemma {:induction false} OneFixEach(issues: seq<Value>, fixes: seq<string>)
    requires |issues| == |fixes|
    requires forall k :: 0 <= k < |issues| ==> SuggestionsFor(issues[k]) == Some([fixes[k]])
    ensures Suggestions(issues) == Some(fixes)
  {
    if issues != [] {
      var n := |issues| - 1;
      var init := issues[..n];
      assert forall k :: 0 <= k < |init| ==> init[k] == issues[k];
      OneFixEach(init, fixes[..n]);
      assert SuggestionsFor(issues[n]) == Some([fixes[n]]);
      assert fixes == fixes[..n] + [fixes[n]];
    }
  }

  /** Fed the output of `detect_issues`, `suggest_improvements` makes one
      suggestion per issue, in the same order. */
  lemma SuggestionsForDetectedIssues(s: State)
    requires CodeOf(s).Some?
    ensures var d := DetectIssuesTool(s).m;
      var issues := DetectIssues(CodeOf(s).value);
      var g := SuggestImprovementsTool(d);
      && g.Returned?
      && g.m["suggestions"] == List(Strs(seq(|issues|, k requires 0 <= k < |issues| => FixFor(issues[k]))))
      && g.m["suggestion_count"] == d["issue_count"]
  {
    var issues := DetectIssues(CodeOf(s).value);
    var fixes := seq(|issues|, k requires 0 <= k < |issues| => FixFor(issues[k]));
    var d := DetectIssuesTool(s).m;
    assert IssuesOf(d) == Some(Strs(issues));
    forall k | 0 <= k < |issues|
      ensures SuggestionsFor(Strs(issues)[k]) == Some([fixes[k]])
    {
      OneFixPerIssue(issues[k]);
    }
    OneFixEach(Strs(issues), fixes);
  }

  // ---------------------------------------------------------------------
  // calculate_quality_score

  /** A value as a number in arithmetic: `bool` counts as 0 or 1; a value
      of any other type makes the arithmetic raise. */
  function Numeric(v: Value): Option<real> {
    match v
    case Int(i) => Some(i as real)
    case Num(r) => Some(r)
    case Bool(b) => Some(if b then 1.0 else 0.0)
    case _ => None
  }

  /** `calculate_quality_score`: `max(0, 10 - issue_count - complexity / 2)`
      under `quality_score`, with the defaults 0 and 5. Python's `max` keeps
      its first argument, the integer 0, unless the difference is larger. */
  function QualityScoreTool(s: State): (r: ToolResult)
    ensures r.Raised? <==>
      Numeric(Lookup(s, "issue_count", Int(0))).None? || Numeric(Lookup(s, "complexity_score", Int(5))).None?
    ensures r.Returned? ==>
      var x := 10.0 - Numeric(Lookup(s, "issue_count", Int(0))).value
                    - Numeric(Lookup(s, "complexity_score", Int(5))).value / 2.0;
      && r.m.Keys == {"quality_score", "quality_check_complete"}
      && r.m["quality_check_complete"] == Bool(true)
      && (x > 0.0 ==> r.m["quality_score"] == Num(x))
      && (x <= 0.0 ==> r.m["quality_score"] == Int(0))
  {
    match (Numeric(Lookup(s, "issue_count", Int(0))), Numeric(Lookup(s, "complexity_score", Int(5))))
    case (Some(issues), Some(complexity)) =>
      var x := 10.0 - issues - complexity / 2.0;
      Returned(map["quality_score" := if 0.0 < x then Num(x) else Int(0), "quality_check_complete" := Bool(true)])
    case _ => Raised
  }

  /** The score of a state without counts is `10 - 5 / 2`. */
  lemma DefaultQuality()
    ensures QualityScoreTool(map[]) == Returned(map["quality_score" := Num(7.5), "quality_check_complete" := Bool(true)])
  {
  }

  /** The score lies between 0 and 10 for non-negative counts, and more
      issues never raise it. */
  lemma QualityScoreBounds(s: State, t: State)
    requires QualityScoreTool(s).Returned? && QualityScoreTool(t).Returned?
    requires Numeric(Lookup(s, "issue_count", Int(0))).value >= 0.0
    requires Numeric(Lookup(s, "complexity_score", Int(5))).value >= 0.0
    requires Lookup(s, "complexity_score", Int(5)) == Lookup(t, "complexity_score", Int(5))
    requires Numeric(Lookup(s, "issue_count", Int(0))).value <= Numeric(Lookup(t, "issue_count", Int(0))).value
    ensures Numeric(QualityScoreTool(s).m["quality_score"]).value <= 10.0
    ensures Numeric(QualityScoreTool(t).m["quality_score"]).value <= Numeric(QualityScoreTool(s).m["quality_score"]).value
    ensures Numeric(QualityScoreTool(s).m["quality_score"]).value >= 0.0
  {
  }

  // ---------------------------------------------------------------------
  // register_code_review_tools

  /** The names `register_code_review_tools` registers, in order. */
  const CodeReviewToolNames := ["extract_functions", "check_complexity", "detect_issues",
                                "suggest_improvements", "calculate_quality_score"]

  /** `register_code_review_tools`: binds the five tools under their names,
      into the registry the engine looks tools up in. Names new to the
      registry join its order in that sequence. */
  method RegisterCodeReviewTools(reg: ToolRegistry)
    requires reg.Valid()
    modifies reg
    ensures reg.Valid()
    ensures (forall n :: n in CodeReviewToolNames ==> n !in old(reg.tools)) ==>
      reg.names == old(reg.names) + CodeReviewToolNames
    ensures reg.tools == old(reg.tools)["extract_functions" := ExtractFunctionsTool]
      ["check_complexity" := CheckComplexityTool]["detect_issues" := DetectIssuesTool]
      ["suggest_improvements" := SuggestImprovementsTool]["calculate_quality_score" := QualityScoreTool]
  {
    var ns := CodeReviewToolNames;
    NamesDistinct();
    ghost var t0, n0 := reg.tools, reg.names;
    reg.Register(ns[0], ExtractFunctionsTool);
    ghost var n1 := reg.names;
    reg.Register(ns[1], CheckComplexityTool);
    ghost var n2 := reg.names;
    reg.Register(ns[2], DetectIssuesTool);
    ghost var n3 := reg.names;
    reg.Register(ns[3], SuggestImprovementsTool);
    ghost var n4 := reg.names;
    reg.Register(ns[4], QualityScoreTool);
    NamesChain(t0.Keys, ns, n0, n1, n2, n3, n4, reg.names);
  }

  /** The five names differ from one another. */
  lemma NamesDistinct()
    ensures forall i, j :: 0 <= i < j < |CodeReviewToolNames| ==>
      CodeReviewToolNames[i] != CodeReviewToolNames[j]
  {
  }

  /** Five registrations in a row, of distinct names none of which was
      registered before, append those names in order. */
  lemma NamesChain(keys: set<string>, ns: seq<string>, n0: seq<string>, n1: seq<string>,
                   n2: seq<string>, n3: seq<string>, n4: seq<string>, n5: seq<string>)
    requires |ns| == 5
    requires forall i, j :: 0 <= i < j < |ns| ==> ns[i] != ns[j]
    requires ns[0] !in keys ==> n1 == n0 + [ns[0]]
    requires ns[1] !in keys + {ns[0]} ==> n2 == n1 + [ns[1]]
    requires ns[2] !in keys + {ns[0], ns[1]} ==> n3 == n2 + [ns[2]]
    requires ns[3] !in keys + {ns[0], ns[1], ns[2]} ==> n4 == n3 + [ns[3]]
    requires ns[4] !in keys + {ns[0], ns[1], ns[2], ns[3]} ==> n5 == n4 + [ns[4]]
    ensures (forall n :: n in ns ==> n !in keys) ==> n5 == n0 + ns
  {
    if forall n :: n in ns ==> n !in keys {
      assert ns == [ns[0], ns[1], ns[2], ns[3], ns[4]];
    }
  }

  /** On a new registry, the code-review tools are exactly the five names, in
      registration order. */
  method CodeReviewRegistry() returns (names: seq<string>)
    ensures names == CodeReviewToolNames
  {
    var reg := new ToolRegistry();
    RegisterCodeReviewTools(reg);
    names := reg.ListTools();
  }
}
