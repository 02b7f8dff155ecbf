/** src/Analyzer/PHPVersionAnalyzer.php: the issues a PHP upgrade raises in
    each file, from the composed rule lists of the version range. */
module PhpVersionAnalyzer {
  import opened Wrappers
  import opened Text
  import opened Ast
  import opened Rules
  import Helpers
  import FunctionCallExtractor
  import ClassUsageExtractor
  import DatabaseManager
  import opened Seqs

  /** The three rule lists analyzeFile checks, in the order it checks them. */
  datatype Category = Removed | Deprecated | Behavior

  /** The issue 'type' each check produces. */
  function KindOf(cat: Category): string {
    match cat
    case Removed => "removed_function"
    case Deprecated => "deprecated_feature"
    case Behavior => "behavior_change"
  }

  /** The key of `$changes` each check reads. */
  function ListKey(cat: Category): string {
    match cat
    case Removed => "removed_functions"
    case Deprecated => "deprecated_features"
    case Behavior => "behavior_changes"
  }

  /** Where an issue type comes in a file's output. */
  function KindRank(kind: string): int {
    if kind == "removed_function" then 0
    else if kind == "deprecated_feature" then 1
    else 2
  }

  /** `$removedFunc['function']`, a missing one reading as ''. */
  function RemovedName(rule: Rule): string {
    FieldOr(rule, "function", "")
  }

  /** The severity an issue of category `cat` gets when its rule sets none. */
  function DefaultSeverity(cat: Category): string {
    match cat
    case Removed => "critical"
    case Deprecated => "high"
    case Behavior => "medium"
  }

  /** The fields of an issue that depend on the rule alone (the line, code
      and snippet are filled in by IssueFor). */
  function Template(cat: Category, rule: Rule): (r: Issue)
    ensures r.kind == KindOf(cat)
  {
    var severity := Some(FieldOr(rule, "severity", DefaultSeverity(cat)));
    var examples := map["replacement" := FieldOpt(rule, "replacement"),
                        "example_old" := FieldOpt(rule, "example_old"),
                        "example_new" := FieldOpt(rule, "example_new")];
    match cat
    case Removed =>
      var name := RemovedName(rule);
      Issue(KindOf(cat), Some("php_compatibility"), severity, "Removed function: " + name + "()",
            FieldOr(rule, "description", "Function " + name + "() has been removed"), 0, "", map[], examples)
    case Deprecated =>
      Issue(KindOf(cat), Some("php_compatibility"), severity, FieldOr(rule, "title", "Deprecated feature"),
            FieldOr(rule, "description", ""), 0, "", map[], examples)
    case Behavior =>
      Issue(KindOf(cat), Some("php_compatibility"), severity, FieldOr(rule, "title", "Behavior change"),
            FieldOr(rule, "description", ""), 0, "", map[], map["recommendation" := FieldOpt(rule, "recommendation")])
  }

  /** The issue a rule of category `cat` raises on `line`. */
  function IssueFor(cat: Category, rule: Rule, line: int, lines: seq<string>): (r: Issue)
    ensures r.kind == KindOf(cat) && r.line == line
  {
    Located(Template(cat, rule), line, lines)
  }

  /** Every issue is a php_compatibility issue whose code is its line of the
      file (or '' past the end), with the two-line snippet around it, the
      rule's severity or the category's default, and the optional keys of
      its category. */
  lemma IssueForFields(cat: Category, rule: Rule, line: int, lines: seq<string>)
    ensures var r := IssueFor(cat, rule, line, lines);
      r.category == Some("php_compatibility") &&
      r.code == CodeAt(lines, line) && r.snippet == Helpers.SnippetOf(lines, line, 2) &&
      ("severity" in rule ==> r.severity == Some(rule["severity"])) &&
      ("severity" !in rule ==> r.severity == Some(DefaultSeverity(cat))) &&
      (cat.Removed? ==> r.title == "Removed function: " + RemovedName(rule) + "()") &&
      (cat.Behavior? ==> r.extra.Keys == {"recommendation"}) &&
      (!cat.Behavior? ==> r.extra.Keys == {"replacement", "example_old", "example_new"})
  {
  }

  // ---------------------------------------------------------------------------
  // checkRemovedFunction

  /** How many calls have the removed function's name, ignoring ASCII case. */
  function MatchCount(name: string, calls: seq<Record>): nat {
    if calls == [] then 0
    else MatchCount(name, calls[..|calls| - 1]) + (if EqualsIgnoreCase(calls[|calls| - 1].name, name) then 1 else 0)
  }

  /** The structural pass: the line of every call whose name equals the
      removed function's ignoring ASCII case, one entry per call. */
  function StructuralLines(name: string, calls: seq<Record>): (r: seq<int>)
    ensures |r| == MatchCount(name, calls)
    ensures forall l :: l in r <==> exists c :: c in calls && EqualsIgnoreCase(c.name, name) && c.line == l
  {
    if calls == [] then []
    else
      var init := calls[..|calls| - 1];
      var c := calls[|calls| - 1];
      assert calls == init + [c];
      var r := StructuralLines(name, init);
      if EqualsIgnoreCase(c.name, name) then r + [c.line] else r
  }

  /** Two matching calls on one line are both reported. */
  lemma SameLineCallsBothReported(name: string, c1: Record, c2: Record)
    requires EqualsIgnoreCase(c1.name, name) && EqualsIgnoreCase(c2.name, name) && c1.line == c2.line
    ensures StructuralLines(name, [c1, c2]) == [c1.line, c1.line]
  {
    assert [c1, c2][..1] == [c1];
    assert [c1][..0] == [];
  }

  /** The textual pass: of the match lines `cand`, those not already on an
      issue of this rule (`seen` being the structural lines, then each kept
      match line in turn). */
  function DedupLines(seen: seq<int>, cand: seq<int>): (r: seq<int>)
    ensures forall l :: l in r ==> l !in seen && l in cand
    ensures forall l :: l in cand ==> l in seen || l in r
    ensures forall i, j :: 0 <= i < j < |r| ==> r[i] != r[j]
  {
    if cand == [] then []
    else
      var init := cand[..|cand| - 1];
      var l := cand[|cand| - 1];
      assert cand == init + [l];
      var r := DedupLines(seen, init);
      if l in seen + r then r else r + [l]
  }

  lemma StructuralLinesSnoc(name: string, calls: seq<Record>, c: Record)
    ensures StructuralLines(name, calls + [c]) ==
      StructuralLines(name, calls) + (if EqualsIgnoreCase(c.name, name) then [c.line] else [])
  {
    assert (calls + [c])[..|calls|] == calls;
  }

  lemma DedupLinesSnoc(seen: seq<int>, cand: seq<int>, l: int)
    ensures DedupLines(seen, cand + [l]) ==
      var r := DedupLines(seen, cand); if l in seen + r then r else r + [l]
  {
    assert (cand + [l])[..|cand|] == cand;
  }

  /** The lines checkRemovedFunction reports: every structural match, then
      the regex matches on lines not yet reported by this rule. */
  function RemovedLines(rule: Rule, calls: seq<Record>, content: string, matcher: Matcher): seq<int> {
    var structural := StructuralLines(RemovedName(rule), calls);
    if "regex" in rule && Truthy(rule["regex"]) then
      structural + DedupLines(structural, MatchLines(content, matcher(Pattern(rule["regex"]), content)))
    else structural
  }

  /** Every structural match is reported, first and in call order; after
      them come regex match lines, each line once and none already reported
      structurally; every regex match line is reported.  Without a non-empty
      regex only the structural matches are. */
  lemma RemovedLinesShape(rule: Rule, calls: seq<Record>, content: string, matcher: Matcher)
    ensures var r := RemovedLines(rule, calls, content, matcher);
      var s := StructuralLines(RemovedName(rule), calls);
      s <= r &&
      (forall i, j :: |s| <= i < j < |r| ==> r[i] != r[j]) &&
      (forall i :: |s| <= i < |r| ==> r[i] !in s)
    ensures "regex" in rule && Truthy(rule["regex"]) ==>
      forall l :: l in MatchLines(content, matcher(Pattern(rule["regex"]), content)) ==>
        l in RemovedLines(rule, calls, content, matcher)
    ensures !("regex" in rule && Truthy(rule["regex"])) ==>
      RemovedLines(rule, calls, content, matcher) == StructuralLines(RemovedName(rule), calls)
  {
    var s := StructuralLines(RemovedName(rule), calls);
    if "regex" in rule && Truthy(rule["regex"]) {
      var t := DedupLines(s, MatchLines(content, matcher(Pattern(rule["regex"]), content)));
      assert forall i :: |s| <= i < |s + t| ==> (s + t)[i] == t[i - |s|];
    }
  }

  /** checkDeprecatedFeature and checkBehaviorChange: one line per match, no
      dedup; nothing without a regex. */
  function RegexLines(rule: Rule, content: string, matcher: Matcher): (r: seq<int>)
    ensures "regex" !in rule ==> r == []
    ensures "regex" in rule ==> |r| == |matcher(Pattern(rule["regex"]), content)|
    ensures "regex" in rule ==> forall i :: 0 <= i < |r| ==>
      r[i] == LineOf(content, matcher(Pattern(rule["regex"]), content)[i])
  {
    if "regex" in rule then MatchLines(content, matcher(Pattern(rule["regex"]), content)) else []
  }

  /** The lines on which one rule of category `cat` raises an issue. */
  function RuleLines(cat: Category, rule: Rule, calls: seq<Record>, content: string, matcher: Matcher): seq<int> {
    if cat.Removed? then RemovedLines(rule, calls, content, matcher) else RegexLines(rule, content, matcher)
  }

  /** The issues one rule of category `cat` raises in a file. */
  function RuleIssues(cat: Category, rule: Rule, calls: seq<Record>, content: string, lines: seq<string>, matcher: Matcher): seq<Issue> {
    IssuesOn(Template(cat, rule), RuleLines(cat, rule, calls, content, matcher), lines)
  }

  /** RuleIssues as a function value, for ConcatMap. */
  function RuleFn(cat: Category, calls: seq<Record>, content: string, lines: seq<string>, matcher: Matcher): Rule -> seq<Issue> {
    rule => RuleIssues(cat, rule, calls, content, lines, matcher)
  }

  /** array_merge of RuleIssues over a rule list, in rule order. */
  function CategoryIssues(cat: Category, rules: seq<Rule>, calls: seq<Record>, content: string, lines: seq<string>, matcher: Matcher): seq<Issue> {
    ConcatMap(RuleFn(cat, calls, content, lines, matcher), rules)
  }

  lemma CategoryIssuesSnoc(cat: Category, rules: seq<Rule>, rule: Rule, calls: seq<Record>, content: string, lines: seq<string>, matcher: Matcher)
    ensures CategoryIssues(cat, rules + [rule], calls, content, lines, matcher) ==
      CategoryIssues(cat, rules, calls, content, lines, matcher) + RuleIssues(cat, rule, calls, content, lines, matcher)
  {
    ConcatMapSnoc(RuleFn(cat, calls, content, lines, matcher), rules, rule);
  }

  /** Every issue of a category's rules has the category's type and is
      raised by one of its rules. */
  lemma CategoryIssuesKinds(cat: Category, rules: seq<Rule>, calls: seq<Record>, content: string, lines: seq<string>, matcher: Matcher)
    ensures forall x :: x in CategoryIssues(cat, rules, calls, content, lines, matcher) ==>
      x.kind == KindOf(cat) && exists rule :: rule in rules && x in RuleIssues(cat, rule, calls, content, lines, matcher)
  {
    var f := RuleFn(cat, calls, content, lines, matcher);
    ConcatMapElements(f, rules);
    forall x | x in CategoryIssues(cat, rules, calls, content, lines, matcher)
      ensures x.kind == KindOf(cat) && exists rule :: rule in rules && x in RuleIssues(cat, rule, calls, content, lines, matcher)
    {
      var rule :| rule in rules && x in f(rule);
      IssuesOnMembers(Template(cat, rule), RuleLines(cat, rule, calls, content, matcher), lines);
    }
  }

  /** Rules never suppress one another: the issues of the k-th rule appear,
      all of them, between those of the rules before and after it. */
  lemma NoCrossRuleSuppression(cat: Category, rules: seq<Rule>, k: nat, calls: seq<Record>, content: string, lines: seq<string>, matcher: Matcher)
    requires k < |rules|
    ensures CategoryIssues(cat, rules, calls, content, lines, matcher) ==
      CategoryIssues(cat, rules[..k], calls, content, lines, matcher) +
      RuleIssues(cat, rules[k], calls, content, lines, matcher) +
      CategoryIssues(cat, rules[k + 1..], calls, content, lines, matcher)
  {
    ConcatMapSplit(RuleFn(cat, calls, content, lines, matcher), rules, k);
  }

  /** analyzeFile as a function of the file and the composed rule lists. */
  function FileIssues(file: SourceFile, changes: Doc, matcher: Matcher): (r: seq<Issue>)
    ensures file.ast.None? ==> r == []
  {
    match file.ast
    case None => []
    case Some(ast) =>
      var calls := FunctionCallExtractor.CallsIn(PreOrder(ast), file.path);
      var lines := FileLines(file.content);
      CategoryIssues(Removed, ListOr(changes, "removed_functions"), calls, file.content, lines, matcher) +
      CategoryIssues(Deprecated, ListOr(changes, "deprecated_features"), calls, file.content, lines, matcher) +
      CategoryIssues(Behavior, ListOr(changes, "behavior_changes"), calls, file.content, lines, matcher)
  }

  /** The rank of the issues one check reports. */
  function CategoryRank(cat: Category): (r: int)
    ensures r == KindRank(KindOf(cat))
  {
    match cat
    case Removed => 0
    case Deprecated => 1
    case Behavior => 2
  }

  /** The rank of every issue of one check. */
  lemma CategoryIssuesRank(cat: Category, rules: seq<Rule>, calls: seq<Record>, content: string, lines: seq<string>, matcher: Matcher)
    ensures forall x :: x in CategoryIssues(cat, rules, calls, content, lines, matcher) ==>
      KindRank(x.kind) == CategoryRank(cat)
  {
    CategoryIssuesKinds(cat, rules, calls, content, lines, matcher);
  }

  /** A file's issues come grouped by check, never interleaved by line:
      removed functions, then deprecated features, then behaviour changes. */
  lemma FileIssuesGrouped(file: SourceFile, changes: Doc, matcher: Matcher)
    ensures var r := FileIssues(file, changes, matcher);
      forall i, j :: 0 <= i < j < |r| ==> KindRank(r[i].kind) <= KindRank(r[j].kind)
  {
    if file.ast.Some? {
      var calls := FunctionCallExtractor.CallsIn(PreOrder(file.ast.value), file.path);
      var lines := FileLines(file.content);
      var removed := ListOr(changes, "removed_functions");
      var deprecated := ListOr(changes, "deprecated_features");
      var behavior := ListOr(changes, "behavior_changes");
      CategoryIssuesRank(Removed, removed, calls, file.content, lines, matcher);
      CategoryIssuesRank(Deprecated, deprecated, calls, file.content, lines, matcher);
      CategoryIssuesRank(Behavior, behavior, calls, file.content, lines, matcher);
      RanksInOrder(CategoryIssues(Removed, removed, calls, file.content, lines, matcher),
                   CategoryIssues(Deprecated, deprecated, calls, file.content, lines, matcher),
                   CategoryIssues(Behavior, behavior, calls, file.content, lines, matcher));
    }
  }

  /** Three runs of issues, of ranks 0, 1 and 2, put end to end. */
  lemma RanksInOrder(a: seq<Issue>, b: seq<Issue>, c: seq<Issue>)
    requires forall x :: x in a ==> KindRank(x.kind) == CategoryRank(Removed)
    requires forall x :: x in b ==> KindRank(x.kind) == CategoryRank(Deprecated)
    requires forall x :: x in c ==> KindRank(x.kind) == CategoryRank(Behavior)
    ensures var r := a + b + c;
      forall i, j :: 0 <= i < j < |r| ==> KindRank(r[i].kind) <= KindRank(r[j].kind)
  {
    var r := a + b + c;
    forall i | 0 <= i < |r|
      ensures KindRank(r[i].kind) == if i < |a| then 0 else if i < |a| + |b| then 1 else 2
    {
      if i < |a| {
        assert r[i] == a[i];
      } else if i < |a| + |b| {
        assert r[i] == b[i - |a|];
      } else {
        assert r[i] == c[i - |a| - |b|];
      }
    }
  }

  /** The file's issues, each with 'file' and 'relative_path' added. */
  function StampAll(issues: seq<Issue>, file: SourceFile): (r: seq<Issue>)
    ensures |r| == |issues|
  {
    if issues == [] then []
    else StampAll(issues[..|issues| - 1], file) + [StampFile(issues[|issues| - 1], file)]
  }

  lemma StampAllSnoc(issues: seq<Issue>, x: Issue, file: SourceFile)
    ensures StampAll(issues + [x], file) == StampAll(issues, file) + [StampFile(x, file)]
  {
    assert (issues + [x])[..|issues|] == issues;
  }

  /** Stamping keeps each issue, in place, and only adds the two keys. */
  lemma {:induction false} StampAllAt(issues: seq<Issue>, file: SourceFile)
    ensures forall i :: 0 <= i < |issues| ==> StampAll(issues, file)[i] == StampFile(issues[i], file)
  {
    if issues != [] {
      StampAllAt(issues[..|issues| - 1], file);
    }
  }

  /** The stamped issues of one file, as a function value for ConcatMap. */
  function FileFn(changes: Doc, matcher: Matcher): SourceFile -> seq<Issue> {
    f => StampAll(FileIssues(f, changes, matcher), f)
  }

  /** analyze after the rule lists are composed: the stamped issues of each
      file, files in input order. */
  function AnalyzeAll(files: seq<SourceFile>, changes: Doc, matcher: Matcher): seq<Issue> {
    ConcatMap(FileFn(changes, matcher), files)
  }

  lemma AnalyzeAllSnoc(files: seq<SourceFile>, file: SourceFile, changes: Doc, matcher: Matcher)
    ensures AnalyzeAll(files + [file], changes, matcher) ==
      AnalyzeAll(files, changes, matcher) + StampAll(FileIssues(file, changes, matcher), file)
  {
    ConcatMapSnoc(FileFn(changes, matcher), files, file);
  }

  /** Every stamped issue is an issue of the file with the two keys added. */
  lemma {:induction false} StampAllMembers(issues: seq<Issue>, file: SourceFile)
    ensures forall x :: x in StampAll(issues, file) ==> exists y :: y in issues && x == StampFile(y, file)
  {
    if issues != [] {
      StampAllMembers(issues[..|issues| - 1], file);
      FrontLast(issues);
      forall x | x in StampAll(issues, file) ensures exists y :: y in issues && x == StampFile(y, file) {
        if x in StampAll(issues[..|issues| - 1], file) {
          var y :| y in issues[..|issues| - 1] && x == StampFile(y, file);
          assert y in issues;
        } else {
          assert issues[|issues| - 1] in issues;
        }
      }
    }
  }

  /** Every issue analyze returns names, under 'file' and 'relative_path',
      one of the input files, and is otherwise an issue of that file. */
  lemma AnalyzeAllStamped(files: seq<SourceFile>, changes: Doc, matcher: Matcher)
    ensures forall x :: x in AnalyzeAll(files, changes, matcher) ==>
      "file" in x.extra && "relative_path" in x.extra &&
      exists f :: f in files && x.extra["file"] == Some(f.path) && x.extra["relative_path"] == Some(RelativePathOf(f)) &&
        exists y :: y in FileIssues(f, changes, matcher) && x == StampFile(y, f)
  {
    var g := FileFn(changes, matcher);
    ConcatMapElements(g, files);
    forall x | x in AnalyzeAll(files, changes, matcher)
      ensures "file" in x.extra && "relative_path" in x.extra &&
        exists f :: f in files && x.extra["file"] == Some(f.path) && x.extra["relative_path"] == Some(RelativePathOf(f)) &&
          exists y :: y in FileIssues(f, changes, matcher) && x == StampFile(y, f)
    {
      var f :| f in files && x in g(f);
      var issues := FileIssues(f, changes, matcher);
      StampAllMembers(issues, f);
      var y :| y in issues && x == StampFile(y, f);
    }
  }

  /** A file that does not parse adds nothing, wherever it is in the list. */
  lemma UnparsableFileSkipped(before: seq<SourceFile>, file: SourceFile, after: seq<SourceFile>, changes: Doc, matcher: Matcher)
    requires file.ast.None?
    ensures AnalyzeAll(before + [file] + after, changes, matcher) ==
      AnalyzeAll(before, changes, matcher) + AnalyzeAll(after, changes, matcher)
  {
    ConcatMapMiddle(FileFn(changes, matcher), before, file, after);
  }

  // ---------------------------------------------------------------------------
  // The methods

  /** checkRemovedFunction: the structural loop over the calls, then the
      regex loop whose inner loop looks for an issue of this rule on the same
      line. */
  method CheckRemovedFunction(rule: Rule, calls: seq<Record>, content: string, lines: seq<string>, matcher: Matcher)
    returns (issues: seq<Issue>)
    ensures issues == RuleIssues(Removed, rule, calls, content, lines, matcher)
  {
    var name := RemovedName(rule);
    var t := Template(Removed, rule);
    issues := StructuralIssues(t, name, calls, lines);
    if "regex" in rule && Truthy(rule["regex"]) {
      var offsets := matcher(Pattern(rule["regex"]), content);
      issues := AddMatchIssues(t, issues, StructuralLines(name, calls), content, lines, offsets);
    }
  }

  /** The structural loop of checkRemovedFunction: an issue for every call
      whose name matches. */
  method StructuralIssues(t: Issue, name: string, calls: seq<Record>, lines: seq<string>)
    returns (issues: seq<Issue>)
    ensures issues == IssuesOn(t, StructuralLines(name, calls), lines)
  {
    issues := [];
    ghost var ls: seq<int> := [];
    for i := 0 to |calls|
      invariant ls == StructuralLines(name, calls[..i])
      invariant issues == IssuesOn(t, ls, lines)
    {
      StructuralLinesSnoc(name, calls[..i], calls[i]);
      TakeSnoc(calls, i);
      if EqualsIgnoreCase(calls[i].name, name) {
        IssuesOnSnoc(t, ls, calls[i].line, lines);
        issues := issues + [Located(t, calls[i].line, lines)];
        ls := ls + [calls[i].line];
      }
    }
    TakeAll(calls);
  }

  /** The regex loop of checkRemovedFunction: an issue for every match
      whose line has no issue of this rule yet. */
  method AddMatchIssues(t: Issue, issues0: seq<Issue>, ghost structural: seq<int>, content: string,
                        lines: seq<string>, offsets: seq<nat>)
    returns (issues: seq<Issue>)
    requires issues0 == IssuesOn(t, structural, lines)
    ensures issues == IssuesOn(t, structural + DedupLines(structural, MatchLines(content, offsets)), lines)
  {
    issues := issues0;
    ghost var cand := MatchLines(content, offsets);
    ghost var kept: seq<int> := [];
    ghost var ls := structural;
    for i := 0 to |offsets|
      invariant kept == DedupLines(structural, cand[..i])
      invariant ls == structural + kept
      invariant issues == IssuesOn(t, ls, lines)
    {
      var lineNumber := LineOf(content, offsets[i]);
      var alreadyAdded := AlreadyAdded(issues, lineNumber);
      IssuesOnLines(t, ls, lines);
      assert alreadyAdded <==> lineNumber in ls;
      MatchLinesAt(content, offsets, i);
      DedupLinesSnoc(structural, cand[..i], lineNumber);
      TakeSnoc(cand, i);
      if !alreadyAdded {
        IssuesOnSnoc(t, ls, lineNumber, lines);
        issues := issues + [Located(t, lineNumber, lines)];
        AppendSnoc(structural, kept, lineNumber);
        kept := kept + [lineNumber];
        ls := ls + [lineNumber];
      }
    }
    TakeAll(cand);
  }

  /** The inner loop of checkRemovedFunction: is some issue already on this
      line? */
  method AlreadyAdded(issues: seq<Issue>, lineNumber: int) returns (alreadyAdded: bool)
    ensures alreadyAdded <==> exists k :: 0 <= k < |issues| && issues[k].line == lineNumber
  {
    alreadyAdded := false;
    var j := 0;
    while j < |issues|
      invariant 0 <= j <= |issues|
      invariant forall k :: 0 <= k < j ==> issues[k].line != lineNumber
    {
      if issues[j].line == lineNumber {
        alreadyAdded := true;
        break;
      }
      j := j + 1;
    }
  }

  /** The loop shared by checkDeprecatedFeature and checkBehaviorChange: one
      issue per match offset. */
  method MatchIssues(t: Issue, content: string, lines: seq<string>, offsets: seq<nat>)
    returns (issues: seq<Issue>)
    ensures issues == IssuesOn(t, MatchLines(content, offsets), lines)
  {
    ghost var cand := MatchLines(content, offsets);
    issues := [];
    for i := 0 to |offsets|
      invariant issues == IssuesOn(t, cand[..i], lines)
    {
      var lineNumber := LineOf(content, offsets[i]);
      MatchLinesAt(content, offsets, i);
      TakeSnoc(cand, i);
      IssuesOnSnoc(t, cand[..i], lineNumber, lines);
      issues := issues + [Located(t, lineNumber, lines)];
    }
    TakeAll(cand);
  }

  /** checkDeprecatedFeature */
  method CheckDeprecatedFeature(rule: Rule, content: string, lines: seq<string>, matcher: Matcher)
    returns (issues: seq<Issue>)
    ensures issues == RuleIssues(Deprecated, rule, [], content, lines, matcher)
  {
    if "regex" !in rule {
      return [];
    }
    issues := MatchIssues(Template(Deprecated, rule), content, lines, matcher(Pattern(rule["regex"]), content));
  }

  /** checkBehaviorChange */
  method CheckBehaviorChange(rule: Rule, content: string, lines: seq<string>, matcher: Matcher)
    returns (issues: seq<Issue>)
    ensures issues == RuleIssues(Behavior, rule, [], content, lines, matcher)
  {
    if "regex" !in rule {
      return [];
    }
    issues := MatchIssues(Template(Behavior, rule), content, lines, matcher(Pattern(rule["regex"]), content));
  }

  /** analyzeFile: nothing for a file that does not parse; otherwise both
      extractors run over the tree and the three rule lists are checked in
      turn. */
  method AnalyzeFile(file: SourceFile, changes: Doc, matcher: Matcher) returns (issues: seq<Issue>)
    ensures issues == FileIssues(file, changes, matcher)
  {
    issues := [];
    var content := file.content;
    var lines := FileLines(content);
    if file.ast.None? {
      return;
    }
    var ast := file.ast.value;
    var calls := FunctionCallExtractor.ExtractCalls(ast, file.path);
    // The class usages are extracted but no check reads them.
    var classUsages := ClassUsageExtractor.ExtractUsages(ast, file.path);

    var removed := CheckCategory(Removed, ListOr(changes, "removed_functions"), calls, content, lines, matcher);
    var deprecated := CheckCategory(Deprecated, ListOr(changes, "deprecated_features"), calls, content, lines, matcher);
    var behavior := CheckCategory(Behavior, ListOr(changes, "behavior_changes"), calls, content, lines, matcher);
    issues := removed + deprecated + behavior;
  }

  /** One of analyzeFile's three loops: the check of category `cat` on each
      rule of its list, results merged in rule order. */
  method CheckCategory(cat: Category, rules: seq<Rule>, calls: seq<Record>, content: string, lines: seq<string>, matcher: Matcher)
    returns (issues: seq<Issue>)
    ensures issues == CategoryIssues(cat, rules, calls, content, lines, matcher)
  {
    issues := [];
    for i := 0 to |rules|
      invariant issues == CategoryIssues(cat, rules[..i], calls, content, lines, matcher)
    {
      TakeSnoc(rules, i);
      CategoryIssuesSnoc(cat, rules[..i], rules[i], calls, content, lines, matcher);
      var found;
      match cat {
        case Removed =>
          found := CheckRemovedFunction(rules[i], calls, content, lines, matcher);
        case Deprecated =>
          found := CheckDeprecatedFeature(rules[i], content, lines, matcher);
          RegexRuleIgnoresCalls(cat, rules[i], calls, content, lines, matcher);
        case Behavior =>
          found := CheckBehaviorChange(rules[i], content, lines, matcher);
          RegexRuleIgnoresCalls(cat, rules[i], calls, content, lines, matcher);
      }
      issues := issues + found;
    }
    TakeAll(rules);
  }

  /** The regex-only checks do not look at the calls. */
  lemma RegexRuleIgnoresCalls(cat: Category, rule: Rule, calls: seq<Record>, content: string, lines: seq<string>, matcher: Matcher)
    requires !cat.Removed?
    ensures RuleIssues(cat, rule, calls, content, lines, matcher) == RuleIssues(cat, rule, [], content, lines, matcher)
  {
  }

  /** analyze: compose the rule lists of the range, then the stamped issues
      of every file in order.  The `empty($changes)` early return is left
      out: the composed map always has its four keys (ChangesNeverEmpty). */
  method Analyze(db: DatabaseManager.DatabaseManager, disk: DatabaseManager.Disk, files: seq<SourceFile>,
                 fromVersion: string, toVersion: string, matcher: Matcher)
    returns (issues: seq<Issue>)
    modifies db
    ensures issues == AnalyzeAll(files, DatabaseManager.AllPhpChanges(old(db.cache), disk, db.databasePath, fromVersion, toVersion), matcher)
    ensures db.cache == DatabaseManager.AllPhpCache(old(db.cache), disk, db.databasePath, fromVersion, toVersion)
    ensures DatabaseManager.GrewByPhpKeys(old(db.cache), db.cache)
  {
    var changes := db.GetAllPhpChanges(disk, fromVersion, toVersion);
    issues := AnalyzeFiles(files, changes, matcher);
  }

  /** The loop of analyze over the files, in order. */
  method AnalyzeFiles(files: seq<SourceFile>, changes: DatabaseManager.Changes, matcher: Matcher)
    returns (issues: seq<Issue>)
    ensures issues == AnalyzeAll(files, changes, matcher)
  {
    issues := [];
    for i := 0 to |files|
      invariant issues == AnalyzeAll(files[..i], changes, matcher)
    {
      TakeSnoc(files, i);
      AnalyzeAllSnoc(files[..i], files[i], changes, matcher);
      var fileIssues := AnalyzeFile(files[i], changes, matcher);
      var stamped := StampIssues(fileIssues, files[i]);
      issues := issues + stamped;
    }
    TakeAll(files);
  }

  /** The inner loop of analyze: 'file' and 'relative_path' added to each
      issue of one file. */
  method StampIssues(fileIssues: seq<Issue>, file: SourceFile) returns (stamped: seq<Issue>)
    ensures stamped == StampAll(fileIssues, file)
  {
    stamped := [];
    for j := 0 to |fileIssues|
      invariant stamped == StampAll(fileIssues[..j], file)
    {
      TakeSnoc(fileIssues, j);
      StampAllSnoc(fileIssues[..j], fileIssues[j], file);
      stamped := stamped + [StampFile(fileIssues[j], file)];
    }
    TakeAll(fileIssues);
  }

  /** The composed rule lists are never empty, so analyze always goes on to
      the files. */
  lemma ChangesNeverEmpty(cache: map<string, Doc>, disk: DatabaseManager.Disk, base: string, fromVersion: string, toVersion: string)
    ensures |DatabaseManager.AllPhpChanges(cache, disk, base, fromVersion, toVersion)| == 4
  {
    var r := DatabaseManager.AllPhpChanges(cache, disk, base, fromVersion, toVersion);
    assert r.Keys == {"removed_functions", "deprecated_features", "behavior_changes", "new_features"};
    assert |r| == |r.Keys|;
  }
}
