/** The top level of an analysis run (src/Core/Application.php): which
    analyzers run and in what order their issues are gathered, the summary
    of the issues, the effort estimate and the choice of reporter. */
module Application {
  import opened Wrappers
  import opened Text
  import opened Seqs
  import opened Rules
  import DatabaseManager
  import PhpVersionAnalyzer
  import PlatformAnalyzer

  // ---------------------------------------------------------------------------
  // Summary

  /** The keys of 'by_severity', in the order generateSummary creates them. */
  const SeverityKeys: seq<string> := ["critical", "high", "medium", "low", "info"]

  /** `$issue['severity'] ?? 'info'` */
  function SeverityOf(issue: Issue): string {
    issue.severity.GetOr("info")
  }

  /** `$issue['category'] ?? 'other'` */
  function CategoryOf(issue: Issue): string {
    issue.category.GetOr("other")
  }

  function SeverityList(issues: seq<Issue>): seq<string> {
    seq(|issues|, i requires 0 <= i < |issues| => SeverityOf(issues[i]))
  }

  function CategoryList(issues: seq<Issue>): seq<string> {
    seq(|issues|, i requires 0 <= i < |issues| => CategoryOf(issues[i]))
  }

  /** 'by_category': a PHP array from category to count, in the order the
      categories were first seen. */
  type Tally = seq<(string, nat)>

  function TallyKeys(t: Tally): seq<string> {
    if t == [] then [] else [t[0].0] + TallyKeys(t[1..])
  }

  /** The count a tally holds for `key`, 0 when the key is absent. */
  function CountOf(t: Tally, key: string): nat {
    if t == [] then 0
    else if t[0].0 == key then t[0].1
    else CountOf(t[1..], key)
  }

  function Total(t: Tally): nat {
    if t == [] then 0 else t[0].1 + Total(t[1..])
  }

  predicate Distinct(keys: seq<string>) {
    forall i, j :: 0 <= i < j < |keys| ==> keys[i] != keys[j]
  }

  /** `if (!isset($t[$key])) { $t[$key] = 0; } $t[$key]++;` */
  function Bump(t: Tally, key: string): Tally {
    if t == [] then [(key, 1)]
    else if t[0].0 == key then [(key, t[0].1 + 1)] + t[1..]
    else [t[0]] + Bump(t[1..], key)
  }

  /** Bumping adds one to the key's count and leaves every other count. */
  lemma {:induction false} BumpCount(t: Tally, key: string, k: string)
    ensures CountOf(Bump(t, key), k) == CountOf(t, k) + (if k == key then 1 else 0)
  {
    if t != [] && t[0].0 != key {
      BumpCount(t[1..], key, k);
      assert Bump(t, key)[1..] == Bump(t[1..], key);
    }
  }

  lemma {:induction false} BumpTotal(t: Tally, key: string)
    ensures Total(Bump(t, key)) == Total(t) + 1
  {
    if t != [] && t[0].0 != key {
      BumpTotal(t[1..], key);
      assert Bump(t, key)[1..] == Bump(t[1..], key);
    } else if t != [] {
      assert Bump(t, key)[1..] == t[1..];
    }
  }

  /** A key already present keeps its place; a new key goes last. */
  lemma {:induction false} BumpKeys(t: Tally, key: string)
    ensures TallyKeys(Bump(t, key)) == if key in TallyKeys(t) then TallyKeys(t) else TallyKeys(t) + [key]
  {
    if t != [] {
      if t[0].0 == key {
        assert TallyKeys(Bump(t, key)) == [key] + TallyKeys(t[1..]);
      } else {
        BumpKeys(t[1..], key);
        assert TallyKeys(Bump(t, key)) == [t[0].0] + TallyKeys(Bump(t[1..], key));
      }
    }
  }

  /** The severity histogram of the issues: the five keys, each counting the
      issues of that severity; other severities are not counted. */
  function SeverityTally(issues: seq<Issue>): (r: map<string, nat>)
    ensures r.Keys == {"critical", "high", "medium", "low", "info"}
  {
    if issues == [] then map["critical" := 0, "high" := 0, "medium" := 0, "low" := 0, "info" := 0]
    else
      var m := SeverityTally(issues[..|issues| - 1]);
      var s := SeverityOf(issues[|issues| - 1]);
      if s in m then m[s := m[s] + 1] else m
  }

  /** The category histogram of the issues. */
  function CategoryTally(issues: seq<Issue>): Tally {
    if issues == [] then []
    else Bump(CategoryTally(issues[..|issues| - 1]), CategoryOf(issues[|issues| - 1]))
  }

  lemma SeverityListSnoc(issues: seq<Issue>)
    requires issues != []
    ensures SeverityList(issues) == SeverityList(issues[..|issues| - 1]) + [SeverityOf(issues[|issues| - 1])]
  {
  }

  lemma CategoryListSnoc(issues: seq<Issue>)
    requires issues != []
    ensures CategoryList(issues) == CategoryList(issues[..|issues| - 1]) + [CategoryOf(issues[|issues| - 1])]
  {
  }

  /** by_severity[s] is the number of issues whose severity (info when
      missing) is s, for each of the five keys. */
  lemma {:induction false} SeverityTallyCounts(issues: seq<Issue>)
    ensures forall s :: s in SeverityTally(issues) ==> SeverityTally(issues)[s] == multiset(SeverityList(issues))[s]
  {
    if issues != [] {
      var front := issues[..|issues| - 1];
      SeverityTallyCounts(front);
      SeverityListSnoc(issues);
    }
  }

  /** by_category[c] is the number of issues whose category (other when
      missing) is c. */
  lemma {:induction false} CategoryTallyCounts(issues: seq<Issue>)
    ensures forall c :: CountOf(CategoryTally(issues), c) == multiset(CategoryList(issues))[c]
  {
    if issues != [] {
      var front := issues[..|issues| - 1];
      var c := CategoryOf(issues[|issues| - 1]);
      CategoryTallyCounts(front);
      CategoryListSnoc(issues);
      forall k ensures CountOf(CategoryTally(issues), k) == multiset(CategoryList(issues))[k] {
        BumpCount(CategoryTally(front), c, k);
      }
    }
  }

  /** Each category appears once in by_category, exactly the categories of
      the issues appear, in order of first appearance, and the counts add
      up to total_issues. */
  lemma {:induction false} CategoryTallyShape(issues: seq<Issue>)
    ensures Distinct(TallyKeys(CategoryTally(issues)))
    ensures forall c :: c in TallyKeys(CategoryTally(issues)) <==> c in CategoryList(issues)
    ensures Total(CategoryTally(issues)) == |issues|
  {
    if issues != [] {
      var front := issues[..|issues| - 1];
      var c := CategoryOf(issues[|issues| - 1]);
      CategoryTallyShape(front);
      CategoryListSnoc(issues);
      BumpKeys(CategoryTally(front), c);
      BumpTotal(CategoryTally(front), c);
    }
  }

  /** The 'summary' entry of the results. */
  datatype Summary = Summary(totalIssues: nat, bySeverity: map<string, nat>, byCategory: Tally)

  function Summarize(issues: seq<Issue>): Summary {
    Summary(|issues|, SeverityTally(issues), CategoryTally(issues))
  }

  /** generateSummary */
  method GenerateSummary(issues: seq<Issue>) returns (summary: Summary)
    ensures summary == Summarize(issues)
  {
    var bySeverity: map<string, nat> := map["critical" := 0, "high" := 0, "medium" := 0, "low" := 0, "info" := 0];
    var byCategory: Tally := [];
    for i := 0 to |issues|
      invariant bySeverity == SeverityTally(issues[..i])
      invariant byCategory == CategoryTally(issues[..i])
    {
      TakeSnoc(issues, i);
      var severity := issues[i].severity.GetOr("info");
      if severity in bySeverity {
        bySeverity := bySeverity[severity := bySeverity[severity] + 1];
      }
      var category := issues[i].category.GetOr("other");
      byCategory := Bump(byCategory, category);
    }
    TakeAll(issues);
    summary := Summary(|issues|, bySeverity, byCategory);
  }

  // ---------------------------------------------------------------------------
  // Effort

  /** Hourly rates per severity, in hundredths of an hour. */
  type Rates = map<string, int>

  /** The rates estimateEffort uses when the configuration has none:
      4, 2, 1, 0.5 and 0.1 hours. */
  const DefaultRates: Rates := map["critical" := 400, "high" := 200, "medium" := 100, "low" := 50, "info" := 10]

  /** `$rates[$severity] ?? 1` */
  function RateOf(rates: Rates, severity: string): int {
    if severity in rates then rates[severity] else 100
  }

  /** Σ count × rate over `keys`, in hundredths of an hour. */
  function Weighted(counts: map<string, nat>, rates: Rates, keys: seq<string>): int
    requires forall k :: k in keys ==> k in counts
  {
    if keys == [] then 0
    else Weighted(counts, rates, keys[..|keys| - 1]) + counts[keys[|keys| - 1]] * RateOf(rates, keys[|keys| - 1])
  }

  /** `round($h, 1)` for a value in hundredths, giving tenths: the nearest
      tenth, halves away from zero. */
  function RoundTenths(h: int): (r: int)
    ensures h >= 0 ==> 10 * r - 5 <= h < 10 * r + 5
    ensures h < 0 ==> 10 * r - 5 < h <= 10 * r + 5
  {
    if h >= 0 then (h + 5) / 10 else -((-h + 5) / 10)
  }

  /** The effort estimateEffort returns, in tenths of an hour. */
  function Effort(summary: Summary, configured: Option<Rates>): int
    requires forall k :: k in SeverityKeys ==> k in summary.bySeverity
  {
    RoundTenths(Weighted(summary.bySeverity, configured.GetOr(DefaultRates), SeverityKeys))
  }

  /** estimateEffort: `configured` is the 'effort_estimation' entry of the
      configuration, when there is one. */
  method EstimateEffort(summary: Summary, configured: Option<Rates>) returns (tenths: int)
    requires forall k :: k in SeverityKeys ==> k in summary.bySeverity
    ensures tenths == Effort(summary, configured)
  {
    var hours := 0;
    var rates := configured.GetOr(DefaultRates);
    for i := 0 to |SeverityKeys|
      invariant hours == Weighted(summary.bySeverity, rates, SeverityKeys[..i])
    {
      TakeSnoc(SeverityKeys, i);
      var severity := SeverityKeys[i];
      var rate := if severity in rates then rates[severity] else 100;
      hours := hours + summary.bySeverity[severity] * rate;
    }
    TakeAll(SeverityKeys);
    tenths := RoundTenths(hours);
  }

  /** With the default rates, 2 critical, 1 high, 3 medium, no low and 5
      info issues take 13.5 hours. */
  lemma EffortExample()
    ensures Effort(Summary(11, map["critical" := 2, "high" := 1, "medium" := 3, "low" := 0, "info" := 5], []), None) == 135
  {
    var counts := map["critical" := 2, "high" := 1, "medium" := 3, "low" := 0, "info" := 5];
    var k1, k2, k3, k4 := ["critical"], ["critical", "high"], ["critical", "high", "medium"], ["critical", "high", "medium", "low"];
    assert k2[..1] == k1 && k3[..2] == k2 && k4[..3] == k3 && SeverityKeys[..4] == k4;
    assert Weighted(counts, DefaultRates, k1) == 800;
    assert Weighted(counts, DefaultRates, k2) == 1000;
    assert Weighted(counts, DefaultRates, k3) == 1300;
    assert Weighted(counts, DefaultRates, k4) == 1300;
    assert Weighted(counts, DefaultRates, SeverityKeys) == 1350;
  }

  /** One more issue of severity s adds exactly s's rate to the total. */
  lemma {:induction false} WeightedBump(counts: map<string, nat>, rates: Rates, keys: seq<string>, s: string)
    requires Distinct(keys) && s in counts
    requires forall k :: k in keys ==> k in counts
    ensures Weighted(counts[s := counts[s] + 1], rates, keys) ==
            Weighted(counts, rates, keys) + (if s in keys then RateOf(rates, s) else 0)
  {
    if keys != [] {
      var front := keys[..|keys| - 1];
      assert Distinct(front);
      WeightedBump(counts, rates, front, s);
      assert s in keys <==> s in front || s == keys[|keys| - 1];
      assert s == keys[|keys| - 1] ==> s !in front;
    }
  }

  lemma SeverityKeysDistinct()
    ensures Distinct(SeverityKeys)
  {
  }

  /** An issue of a known severity adds its rate to the unrounded effort;
      an issue of any other severity adds nothing. */
  lemma EffortOfOneMore(issues: seq<Issue>, issue: Issue, rates: Rates)
    ensures var before := Weighted(SeverityTally(issues), rates, SeverityKeys);
      var after := Weighted(SeverityTally(issues + [issue]), rates, SeverityKeys);
      after == before + (if SeverityOf(issue) in SeverityKeys then RateOf(rates, SeverityOf(issue)) else 0)
  {
    var all := issues + [issue];
    assert all[..|all| - 1] == issues;
    SeverityKeysDistinct();
    if SeverityOf(issue) in SeverityTally(issues) {
      WeightedBump(SeverityTally(issues), rates, SeverityKeys, SeverityOf(issue));
    }
  }

  // ---------------------------------------------------------------------------
  // Reporters

  datatype ReportFormat = Html | Markdown | PlainText | Json

  function FormatName(f: ReportFormat): string {
    match f
    case Html => "html"
    case Markdown => "markdown"
    case PlainText => "text"
    case Json => "json"
  }

  /** getReporter: the reporter for one of the four formats; any other name
      throws "Unknown report format: ...". */
  function GetReporter(format: string): (r: Result<ReportFormat, string>)
    ensures r.Success? <==> format in {"html", "markdown", "text", "json"}
    ensures r.Success? ==> FormatName(r.value) == format
    ensures r.Failure? ==> r.error == "Unknown report format: " + format
  {
    if format == "html" then Success(Html)
    else if format == "markdown" then Success(Markdown)
    else if format == "text" then Success(PlainText)
    else if format == "json" then Success(Json)
    else Failure("Unknown report format: " + format)
  }

  /** Every reporter is chosen by its own name. */
  lemma GetReporterByName(f: ReportFormat)
    ensures GetReporter(FormatName(f)) == Success(f)
  {
  }

  // ---------------------------------------------------------------------------
  // Analysis run

  /** The options of analyze that decide which analyzers run; a missing
      option is None.  `estimateEffort` is the option's PHP truthiness. */
  datatype Options = Options(
    projectName: Option<string>,
    platform: Option<string>,
    currentPlatformVersion: Option<string>,
    targetPlatformVersion: Option<string>,
    currentPhp: Option<string>,
    targetPhp: Option<string>,
    estimateEffort: bool)

  /** `!empty($options[...])` for a string option. */
  predicate Given(v: Option<string>) {
    v.Some? && Truthy(v.value)
  }

  predicate RunsPhpAnalysis(o: Options) {
    Given(o.currentPhp) && Given(o.targetPhp)
  }

  predicate RunsPlatformAnalysis(o: Options) {
    Given(o.platform) && o.platform.value != "generic"
  }

  /** The PHP analyzer's issues when it runs. */
  function PhpPart(cache: map<string, Rules.Doc>, disk: DatabaseManager.Disk, base: string,
                   files: seq<SourceFile>, o: Options, matcher: Matcher): seq<Issue>
  {
    if RunsPhpAnalysis(o) then
      PhpVersionAnalyzer.AnalyzeAll(files, DatabaseManager.AllPhpChanges(cache, disk, base, o.currentPhp.value, o.targetPhp.value), matcher)
    else []
  }

  /** The platform analyzer's issues when it runs. */
  function PlatformPart(cache: map<string, Rules.Doc>, disk: DatabaseManager.Disk, base: string,
                        files: seq<SourceFile>, o: Options, matcher: Matcher): seq<Issue>
  {
    if RunsPlatformAnalysis(o) then
      var p := o.platform.value;
      PlatformAnalyzer.PlatformIssues(
        DatabaseManager.Lookup(cache, disk, DatabaseManager.PlatformDeprecatedKey(p), DatabaseManager.PlatformDeprecatedPath(base, p)),
        files, p, o.currentPlatformVersion, matcher)
    else []
  }

  /** The cache the PHP half leaves. */
  ghost function PhpCache(cache: map<string, Rules.Doc>, disk: DatabaseManager.Disk, base: string, o: Options): map<string, Rules.Doc>
  {
    if RunsPhpAnalysis(o) then DatabaseManager.AllPhpCache(cache, disk, base, o.currentPhp.value, o.targetPhp.value)
    else cache
  }

  /** The cache the platform half leaves. */
  function PlatformCacheOf(cache: map<string, Rules.Doc>, disk: DatabaseManager.Disk, base: string, o: Options): map<string, Rules.Doc>
  {
    if RunsPlatformAnalysis(o) then PlatformAnalyzer.PlatformCache(cache, disk, base, o.platform.value)
    else cache
  }

  /** The 'issues' entry of the results: PHP issues first, then platform issues. */
  function AnalysisIssues(cache: map<string, Rules.Doc>, disk: DatabaseManager.Disk, base: string,
                          files: seq<SourceFile>, o: Options, matcher: Matcher): seq<Issue>
  {
    PhpPart(cache, disk, base, files, o, matcher) + PlatformPart(cache, disk, base, files, o, matcher)
  }

  /** Every issue after the PHP ones carries the platform's tag. */
  lemma PlatformIssuesLast(cache: map<string, Rules.Doc>, disk: DatabaseManager.Disk, base: string,
                           files: seq<SourceFile>, o: Options, matcher: Matcher)
    ensures var all := AnalysisIssues(cache, disk, base, files, o, matcher);
      var n := |PhpPart(cache, disk, base, files, o, matcher)|;
      all[..n] == PhpPart(cache, disk, base, files, o, matcher) &&
      forall i :: n <= i < |all| ==> "platform" in all[i].extra && all[i].extra["platform"] == o.platform
  {
    var php := PhpPart(cache, disk, base, files, o, matcher);
    var platform := PlatformPart(cache, disk, base, files, o, matcher);
    if RunsPlatformAnalysis(o) {
      var p := o.platform.value;
      PlatformAnalyzer.PlatformIssuesTagged(
        DatabaseManager.Lookup(cache, disk, DatabaseManager.PlatformDeprecatedKey(p), DatabaseManager.PlatformDeprecatedPath(base, p)),
        files, p, o.currentPlatformVersion, matcher);
    }
    AppendTagged(php, platform, o.platform);
  }

  lemma AppendTagged(a: seq<Issue>, b: seq<Issue>, tag: Option<string>)
    requires forall x :: x in b ==> "platform" in x.extra && x.extra["platform"] == tag
    ensures (a + b)[..|a|] == a
    ensures forall i :: |a| <= i < |a + b| ==> "platform" in (a + b)[i].extra && (a + b)[i].extra["platform"] == tag
  {
    forall i | |a| <= i < |a + b|
      ensures "platform" in (a + b)[i].extra && (a + b)[i].extra["platform"] == tag
    {
      assert (a + b)[i] == b[i - |a|];
      assert b[i - |a|] in b;
    }
  }

  /** The results analyze returns, without the scan id, timestamp and
      duration, and without the plugin, server and dependency sections. */
  datatype Results = Results(
    projectName: string,
    platform: string,
    currentPlatformVersion: string,
    targetPlatformVersion: string,
    currentPhpVersion: string,
    targetPhpVersion: string,
    files: seq<SourceFile>,
    issues: seq<Issue>,
    summary: Summary,
    effortTenths: int)

  /** analyze: the defaults of the echoed options, the issues of the
      analyzers that run (PHP before platform), the summary of those issues,
      and the effort when it was asked for (0 otherwise). */
  method Analyze(db: DatabaseManager.DatabaseManager, disk: DatabaseManager.Disk, files: seq<SourceFile>,
                 options: Options, configured: Option<Rates>, matcher: Matcher)
    returns (results: Results)
    modifies db
    ensures results.projectName == options.projectName.GetOr("Unknown")
    ensures results.platform == options.platform.GetOr("generic")
    ensures results.currentPlatformVersion == options.currentPlatformVersion.GetOr("unknown")
    ensures results.targetPlatformVersion == options.targetPlatformVersion.GetOr("unknown")
    ensures results.currentPhpVersion == options.currentPhp.GetOr("unknown")
    ensures results.targetPhpVersion == options.targetPhp.GetOr("unknown")
    ensures results.files == files
    ensures results.issues == AnalysisIssues(old(db.cache), disk, db.databasePath, files, options, matcher)
    ensures results.summary == Summarize(results.issues)
    ensures results.effortTenths == if options.estimateEffort then Effort(results.summary, configured) else 0
    ensures db.cache == PlatformCacheOf(PhpCache(old(db.cache), disk, db.databasePath, options), disk, db.databasePath, options)
  {
    ghost var before := db.cache;
    var phpIssues := PhpStep(db, disk, files, options, matcher);
    PlatformPartUnaffected(before, db.cache, disk, db.databasePath, files, options, matcher);
    var platformIssues := PlatformStep(db, disk, files, options, matcher);
    var issues := phpIssues + platformIssues;
    var summary := GenerateSummary(issues);
    var effort := 0;
    if options.estimateEffort {
      effort := EstimateEffort(summary, configured);
    }
    results := Results(
      options.projectName.GetOr("Unknown"), options.platform.GetOr("generic"),
      options.currentPlatformVersion.GetOr("unknown"), options.targetPlatformVersion.GetOr("unknown"),
      options.currentPhp.GetOr("unknown"), options.targetPhp.GetOr("unknown"),
      files, issues, summary, effort);
  }

  /** The PHP half of analyze. */
  method PhpStep(db: DatabaseManager.DatabaseManager, disk: DatabaseManager.Disk, files: seq<SourceFile>,
                 options: Options, matcher: Matcher)
    returns (issues: seq<Issue>)
    modifies db
    ensures issues == PhpPart(old(db.cache), disk, db.databasePath, files, options, matcher)
    ensures db.cache == PhpCache(old(db.cache), disk, db.databasePath, options)
    ensures DatabaseManager.GrewByPhpKeys(old(db.cache), db.cache)
  {
    issues := [];
    if Given(options.currentPhp) && Given(options.targetPhp) {
      issues := PhpVersionAnalyzer.Analyze(db, disk, files, options.currentPhp.value, options.targetPhp.value, matcher);
    }
  }

  /** The platform half of analyze. */
  method PlatformStep(db: DatabaseManager.DatabaseManager, disk: DatabaseManager.Disk, files: seq<SourceFile>,
                      options: Options, matcher: Matcher)
    returns (issues: seq<Issue>)
    modifies db
    ensures issues == PlatformPart(old(db.cache), disk, db.databasePath, files, options, matcher)
    ensures db.cache == PlatformCacheOf(old(db.cache), disk, db.databasePath, options)
  {
    issues := [];
    if Given(options.platform) && options.platform.value != "generic" {
      issues := PlatformAnalyzer.Analyze(db, disk, files, options.platform.value, options.currentPlatformVersion,
                                         options.targetPlatformVersion, matcher);
    }
  }

  /** The cache entries the PHP half adds do not change what the platform
      half reads. */
  lemma PlatformPartUnaffected(before: map<string, Rules.Doc>, after: map<string, Rules.Doc>, disk: DatabaseManager.Disk,
                               base: string, files: seq<SourceFile>, o: Options, matcher: Matcher)
    requires DatabaseManager.GrewByPhpKeys(before, after)
    ensures PlatformPart(after, disk, base, files, o, matcher) == PlatformPart(before, disk, base, files, o, matcher)
  {
    if RunsPlatformAnalysis(o) {
      var p := o.platform.value;
      DatabaseManager.PlatformLookupUnaffected(before, after, disk, p, DatabaseManager.PlatformDeprecatedPath(base, p));
    }
  }
}
