/** src/Analyzer/PlatformAnalyzer.php: the issues the deprecated functions of
    a platform (Moodle, WordPress, ...) raise in each file.  Matching is
    textual only; a rule is dropped when it was removed before the starting
    platform version. */
module PlatformAnalyzer {
  import opened Wrappers
  import opened Text
  import opened Rules
  import opened Seqs
  import VersionComparator
  import DatabaseManager

  /** `$fromVersion && isset($func['removed_in']) &&
      version_compare($func['removed_in'], $fromVersion, '<')`: the function
      was already gone before the starting version. */
  predicate RemovedBefore(rule: Rule, fromVersion: Option<string>) {
    fromVersion.Some? && Truthy(fromVersion.value) && "removed_in" in rule &&
    VersionComparator.Compare(rule["removed_in"], fromVersion.value) < 0
  }

  /** The rules analyzeFile searches for: not removed before the range, and
      with a regex. */
  predicate Checked(rule: Rule, fromVersion: Option<string>) {
    !RemovedBefore(rule, fromVersion) && "regex" in rule
  }

  /** "Function F is deprecated since version D" (a missing key reads as ''). */
  function DeprecationText(rule: Rule): string {
    "Function " + FieldOr(rule, "function", "") + " is deprecated since version " + FieldOr(rule, "deprecated_since", "")
  }

  /** The issue description: the deprecation text, then " and removed in X"
      exactly when the rule names a removal version X. */
  function Description(rule: Rule): (r: string)
    ensures DeprecationText(rule) <= r
    ensures "removed_in" in rule ==> r[|DeprecationText(rule)|..] == " and removed in " + rule["removed_in"]
    ensures "removed_in" !in rule ==> |r| == |DeprecationText(rule)|
  {
    DeprecationText(rule) + (if "removed_in" in rule then " and removed in " + rule["removed_in"] else "")
  }

  /** The fields of an issue that depend on the rule alone. */
  function Template(rule: Rule): (r: Issue)
    ensures r.kind == "deprecated_platform_function"
  {
    Issue("deprecated_platform_function", Some("platform_compatibility"), Some(FieldOr(rule, "severity", "high")),
          "Deprecated function: " + FieldOr(rule, "function", ""), Description(rule), 0, "", map[],
          map["replacement" := FieldOpt(rule, "replacement"),
              "example_old" := FieldOpt(rule, "example_old"),
              "example_new" := FieldOpt(rule, "example_new"),
              "deprecated_since" := FieldOpt(rule, "deprecated_since"),
              "removed_in" := FieldOpt(rule, "removed_in")])
  }

  /** Every platform issue is a platform_compatibility issue of severity
      'high' unless the rule sets one, titled after the function, and keeps
      the rule's removal version (or null) under 'removed_in'. */
  lemma TemplateFields(rule: Rule)
    ensures var t := Template(rule);
      t.category == Some("platform_compatibility") &&
      ("severity" !in rule ==> t.severity == Some("high")) &&
      ("severity" in rule ==> t.severity == Some(rule["severity"])) &&
      t.title == "Deprecated function: " + FieldOr(rule, "function", "") &&
      t.extra.Keys == {"replacement", "example_old", "example_new", "deprecated_since", "removed_in"} &&
      t.extra["removed_in"] == FieldOpt(rule, "removed_in")
  {
  }

  /** The lines one rule reports in a file: one per match, no dedup, none
      for a rule that is not checked. */
  function RuleLines(rule: Rule, fromVersion: Option<string>, content: string, matcher: Matcher): seq<int> {
    if Checked(rule, fromVersion) then MatchLines(content, matcher(Pattern(rule["regex"]), content)) else []
  }

  /** The issues one rule raises in a file. */
  function RuleIssues(rule: Rule, fromVersion: Option<string>, content: string, lines: seq<string>, matcher: Matcher): seq<Issue> {
    IssuesOn(Template(rule), RuleLines(rule, fromVersion, content, matcher), lines)
  }

  /** A rule removed before the starting version, or without a regex,
      raises nothing; any other rule raises one issue per match, on the
      match's line, in match order. */
  lemma RuleIssuesShape(rule: Rule, fromVersion: Option<string>, content: string, lines: seq<string>, matcher: Matcher)
    ensures !Checked(rule, fromVersion) ==> RuleIssues(rule, fromVersion, content, lines, matcher) == []
    ensures Checked(rule, fromVersion) ==>
      var offsets := matcher(Pattern(rule["regex"]), content);
      var r := RuleIssues(rule, fromVersion, content, lines, matcher);
      |r| == |offsets| &&
      forall i :: 0 <= i < |r| ==> r[i] == Located(Template(rule), LineOf(content, offsets[i]), lines)
  {
    if Checked(rule, fromVersion) {
      var offsets := matcher(Pattern(rule["regex"]), content);
      var ls := MatchLines(content, offsets);
      forall i | 0 <= i < |ls|
        ensures IssuesOn(Template(rule), ls, lines)[i] == Located(Template(rule), LineOf(content, offsets[i]), lines)
      {
        IssuesOnAt(Template(rule), ls, lines, i);
      }
    }
  }

  /** Without a starting version (or with one PHP reads as false) no rule is
      dropped for its removal version. */
  lemma NoFromVersionKeepsRules(rule: Rule, fromVersion: Option<string>)
    requires fromVersion.None? || !Truthy(fromVersion.value)
    ensures Checked(rule, fromVersion) <==> "regex" in rule
  {
  }

  /** RuleIssues as a function value, for ConcatMap. */
  function RuleFn(fromVersion: Option<string>, content: string, lines: seq<string>, matcher: Matcher): Rule -> seq<Issue> {
    rule => RuleIssues(rule, fromVersion, content, lines, matcher)
  }

  /** analyzeFile: the issues of every rule, in rule order. */
  function FileIssues(file: SourceFile, rules: seq<Rule>, fromVersion: Option<string>, matcher: Matcher): seq<Issue> {
    ConcatMap(RuleFn(fromVersion, file.content, FileLines(file.content), matcher), rules)
  }

  /** How many matches the checked rules have in the content. */
  function MatchTotal(rules: seq<Rule>, fromVersion: Option<string>, content: string, matcher: Matcher): nat {
    if rules == [] then 0
    else
      var rule := rules[|rules| - 1];
      MatchTotal(rules[..|rules| - 1], fromVersion, content, matcher) +
      (if Checked(rule, fromVersion) then |matcher(Pattern(rule["regex"]), content)| else 0)
  }

  /** A file raises exactly one issue per match of a checked rule. */
  lemma {:induction false} FileIssueCount(file: SourceFile, rules: seq<Rule>, fromVersion: Option<string>, matcher: Matcher)
    ensures |FileIssues(file, rules, fromVersion, matcher)| == MatchTotal(rules, fromVersion, file.content, matcher)
  {
    if rules != [] {
      var init := rules[..|rules| - 1];
      var rule := rules[|rules| - 1];
      FileIssueCount(file, init, fromVersion, matcher);
      ConcatMapSnoc(RuleFn(fromVersion, file.content, FileLines(file.content), matcher), init, rule);
      FrontLast(rules);
      RuleIssueCount(rule, fromVersion, file.content, FileLines(file.content), matcher);
    }
  }

  lemma RuleIssueCount(rule: Rule, fromVersion: Option<string>, content: string, lines: seq<string>, matcher: Matcher)
    ensures |RuleIssues(rule, fromVersion, content, lines, matcher)| ==
      if Checked(rule, fromVersion) then |matcher(Pattern(rule["regex"]), content)| else 0
  {
  }

  /** The tags analyze() adds to each issue of a file: 'file',
      'relative_path' and 'platform'. */
  function Tag(issue: Issue, file: SourceFile, platform: string): (r: Issue)
    ensures r.extra.Keys == issue.extra.Keys + {"file", "relative_path", "platform"}
    ensures r.extra["file"] == Some(file.path) && r.extra["relative_path"] == Some(RelativePathOf(file))
    ensures r.extra["platform"] == Some(platform)
    ensures r.(extra := issue.extra) == issue
  {
    var stamped := StampFile(issue, file);
    stamped.(extra := stamped.extra["platform" := Some(platform)])
  }

  function TagAll(issues: seq<Issue>, file: SourceFile, platform: string): (r: seq<Issue>)
    ensures |r| == |issues|
  {
    if issues == [] then []
    else TagAll(issues[..|issues| - 1], file, platform) + [Tag(issues[|issues| - 1], file, platform)]
  }

  lemma TagAllSnoc(issues: seq<Issue>, x: Issue, file: SourceFile, platform: string)
    ensures TagAll(issues + [x], file, platform) == TagAll(issues, file, platform) + [Tag(x, file, platform)]
  {
    assert (issues + [x])[..|issues|] == issues;
  }

  /** Every tagged issue is an issue of the file with the three keys added. */
  lemma {:induction false} TagAllMembers(issues: seq<Issue>, file: SourceFile, platform: string)
    ensures forall x :: x in TagAll(issues, file, platform) ==> exists y :: y in issues && x == Tag(y, file, platform)
  {
    if issues != [] {
      TagAllMembers(issues[..|issues| - 1], file, platform);
      FrontLast(issues);
      forall x | x in TagAll(issues, file, platform) ensures exists y :: y in issues && x == Tag(y, file, platform) {
        if x in TagAll(issues[..|issues| - 1], file, platform) {
          var y :| y in issues[..|issues| - 1] && x == Tag(y, file, platform);
          assert y in issues;
        } else {
          assert issues[|issues| - 1] in issues;
        }
      }
    }
  }

  /** The tagged issues of one file, as a function value for ConcatMap. */
  function FileFn(rules: seq<Rule>, fromVersion: Option<string>, platform: string, matcher: Matcher): SourceFile -> seq<Issue> {
    f => TagAll(FileIssues(f, rules, fromVersion, matcher), f, platform)
  }

  /** analyze once the platform data is known: nothing for missing or empty
      data, otherwise the tagged issues of each file against the data's
      'functions' list, files in input order. */
  function PlatformIssues(data: Option<Doc>, files: seq<SourceFile>, platform: string, fromVersion: Option<string>, matcher: Matcher): (r: seq<Issue>)
    ensures data.None? || data.value == map[] ==> r == []
  {
    if data.None? || data.value == map[] then []
    else ConcatMap(FileFn(ListOr(data.value, "functions"), fromVersion, platform, matcher), files)
  }

  /** Every issue analyze returns is an issue of one of the input files,
      tagged with that file and the platform. */
  lemma PlatformIssuesTagged(data: Option<Doc>, files: seq<SourceFile>, platform: string, fromVersion: Option<string>, matcher: Matcher)
    ensures forall x :: x in PlatformIssues(data, files, platform, fromVersion, matcher) ==>
      "platform" in x.extra && x.extra["platform"] == Some(platform) && "file" in x.extra && "relative_path" in x.extra &&
      exists f :: f in files && x.extra["file"] == Some(f.path) && x.extra["relative_path"] == Some(RelativePathOf(f)) &&
        exists y :: y in FileIssues(f, ListOr(data.value, "functions"), fromVersion, matcher) && x == Tag(y, f, platform)
  {
    if !(data.None? || data.value == map[]) {
      var rules := ListOr(data.value, "functions");
      var g := FileFn(rules, fromVersion, platform, matcher);
      ConcatMapElements(g, files);
      forall x | x in PlatformIssues(data, files, platform, fromVersion, matcher)
        ensures "platform" in x.extra && x.extra["platform"] == Some(platform) && "file" in x.extra && "relative_path" in x.extra &&
          exists f :: f in files && x.extra["file"] == Some(f.path) && x.extra["relative_path"] == Some(RelativePathOf(f)) &&
            exists y :: y in FileIssues(f, rules, fromVersion, matcher) && x == Tag(y, f, platform)
      {
        var f :| f in files && x in g(f);
        var issues := FileIssues(f, rules, fromVersion, matcher);
        TagAllMembers(issues, f, platform);
        var y :| y in issues && x == Tag(y, f, platform);
      }
    }
  }

  /** Files are processed in input order: the issues of the files before a
      file come first, then its own, then those of the files after it. */
  lemma FilesInOrder(data: Option<Doc>, files: seq<SourceFile>, k: nat, platform: string, fromVersion: Option<string>, matcher: Matcher)
    requires k < |files|
    requires data.Some? && data.value != map[]
    ensures PlatformIssues(data, files, platform, fromVersion, matcher) ==
      PlatformIssues(data, files[..k], platform, fromVersion, matcher) +
      TagAll(FileIssues(files[k], ListOr(data.value, "functions"), fromVersion, matcher), files[k], platform) +
      PlatformIssues(data, files[k + 1..], platform, fromVersion, matcher)
  {
    ConcatMapSplit(FileFn(ListOr(data.value, "functions"), fromVersion, platform, matcher), files, k);
  }

  // ---------------------------------------------------------------------------
  // The methods

  /** The inner loop of analyzeFile: one issue per match offset. */
  method MatchIssues(t: Issue, content: string, lines: seq<string>, offsets: seq<nat>)
    returns (issues: seq<Issue>)
    ensures issues == IssuesOn(t, MatchLines(content, offsets), lines)
  {
    ghost var cand := MatchLines(content, offsets);
    issues := [];
    for i := 0 to |offsets|
      invariant issues == IssuesOn(t, cand[..i], lines)
    {
      var lineNumber := LineOf(content, offsets[i]);
      MatchLinesAt(content, offsets, i);
      TakeSnoc(cand, i);
      IssuesOnSnoc(t, cand[..i], lineNumber, lines);
      issues := issues + [Located(t, lineNumber, lines)];
    }
    TakeAll(cand);
  }

  /** analyzeFile: for each rule, skip it when it was removed before the
      starting version or has no regex, else add an issue per match.  The
      target version is accepted and not used. */
  method AnalyzeFile(file: SourceFile, rules: seq<Rule>, fromVersion: Option<string>, toVersion: Option<string>, matcher: Matcher)
    returns (issues: seq<Issue>)
    ensures issues == FileIssues(file, rules, fromVersion, matcher)
  {
    var content := file.content;
    var lines := FileLines(content);
    ghost var f := RuleFn(fromVersion, content, lines, matcher);
    issues := [];
    for i := 0 to |rules|
      invariant issues == ConcatMap(f, rules[..i])
    {
      TakeSnoc(rules, i);
      ConcatMapSnoc(f, rules[..i], rules[i]);
      var found := CheckRule(rules[i], fromVersion, content, lines, matcher);
      issues := issues + found;
    }
    TakeAll(rules);
  }

  /** The body of analyzeFile's loop: skip a rule removed before the
      starting version or without a regex, else an issue per match. */
  method CheckRule(rule: Rule, fromVersion: Option<string>, content: string, lines: seq<string>, matcher: Matcher)
    returns (found: seq<Issue>)
    ensures found == RuleIssues(rule, fromVersion, content, lines, matcher)
  {
    if fromVersion.Some? && Truthy(fromVersion.value) && "removed_in" in rule {
      if VersionComparator.Compare(rule["removed_in"], fromVersion.value) < 0 {
        return [];
      }
    }
    if "regex" !in rule {
      return [];
    }
    found := MatchIssues(Template(rule), content, lines, matcher(Pattern(rule["regex"]), content));
  }

  /** The loop of analyze that tags the issues of one file. */
  method TagIssues(fileIssues: seq<Issue>, file: SourceFile, platform: string) returns (tagged: seq<Issue>)
    ensures tagged == TagAll(fileIssues, file, platform)
  {
    tagged := [];
    for j := 0 to |fileIssues|
      invariant tagged == TagAll(fileIssues[..j], file, platform)
    {
      TakeSnoc(fileIssues, j);
      TagAllSnoc(fileIssues[..j], fileIssues[j], file, platform);
      tagged := tagged + [Tag(fileIssues[j], file, platform)];
    }
    TakeAll(fileIssues);
  }

  /** The cache analyze leaves: the platform's deprecated-function data
      remembered when it was read and found. */
  function PlatformCache(cache: map<string, Doc>, disk: DatabaseManager.Disk, base: string, platform: string): map<string, Doc>
  {
    var key := DatabaseManager.PlatformDeprecatedKey(platform);
    DatabaseManager.Remember(cache, key, DatabaseManager.Lookup(cache, disk, key, DatabaseManager.PlatformDeprecatedPath(base, platform)))
  }

  /** analyze: read the platform's deprecated-function data (memoised by the
      database), give nothing when it is missing or empty, otherwise the
      tagged issues of every file.  The result does not depend on
      `toVersion`. */
  method Analyze(db: DatabaseManager.DatabaseManager, disk: DatabaseManager.Disk, files: seq<SourceFile>, platform: string,
                 fromVersion: Option<string>, toVersion: Option<string>, matcher: Matcher)
    returns (issues: seq<Issue>)
    modifies db
    ensures issues == PlatformIssues(
      DatabaseManager.Lookup(old(db.cache), disk, DatabaseManager.PlatformDeprecatedKey(platform),
                             DatabaseManager.PlatformDeprecatedPath(db.databasePath, platform)),
      files, platform, fromVersion, matcher)
    ensures db.cache == PlatformCache(old(db.cache), disk, db.databasePath, platform)
  {
    issues := [];
    var deprecatedData := db.GetPlatformDeprecated(disk, platform);
    if deprecatedData.None? || deprecatedData.value == map[] {
      return;
    }
    ghost var cacheNow := db.cache;
    var deprecatedFunctions := ListOr(deprecatedData.value, "functions");
    ghost var g := FileFn(deprecatedFunctions, fromVersion, platform, matcher);
    for i := 0 to |files|
      invariant issues == ConcatMap(g, files[..i])
      invariant db.cache == cacheNow
    {
      TakeSnoc(files, i);
      ConcatMapSnoc(g, files[..i], files[i]);
      var fileIssues := AnalyzeFile(files[i], deprecatedFunctions, fromVersion, toVersion, matcher);
      var tagged := TagIssues(fileIssues, files[i], platform);
      issues := issues + tagged;
    }
    TakeAll(files);
  }
}
