/** The Nginx generator (src/ServerConfig/NginxGenerator.php): a parsed
    .htaccess becomes Nginx configuration text, one line per directive that
    has an Nginx counterpart, grouped in commented sections. */
module NginxGenerator {
  import opened Wrappers
  import opened Text
  import opened Seqs
  import opened ApacheParser

  /** The lines every generated configuration opens with. */
  const Header: seq<string> := ["# Converted from Apache configuration",
                                "# Manual review required - some directives may need adjustment",
                                ""]

  // ---------------------------------------------------------------------------
  // DirectoryIndex

  predicate IsDirectoryIndex(d: Directive) {
    d.Setting? && d.kind == "DirectoryIndex"
  }

  /** The value of the first DirectoryIndex directive, if any. */
  function FirstIndex(ds: seq<Directive>): Option<string> {
    if ds == [] then None
    else if IsDirectoryIndex(ds[0]) then Some(ds[0].value)
    else FirstIndex(ds[1..])
  }

  /** The first DirectoryIndex decides, whatever follows it. */
  lemma {:induction false} FirstIndexIsFirst(ds: seq<Directive>, k: nat)
    requires k < |ds| && IsDirectoryIndex(ds[k])
    requires forall j :: 0 <= j < k ==> !IsDirectoryIndex(ds[j])
    ensures FirstIndex(ds) == Some(ds[k].value)
  {
    if k > 0 {
      assert !IsDirectoryIndex(ds[0]);
      FirstIndexIsFirst(ds[1..], k - 1);
    }
  }

  /** There is no index exactly when there is no DirectoryIndex directive. */
  lemma {:induction false} FirstIndexNone(ds: seq<Directive>)
    ensures FirstIndex(ds).None? <==> forall k :: 0 <= k < |ds| ==> !IsDirectoryIndex(ds[k])
  {
    if ds != [] {
      FirstIndexNone(ds[1..]);
      assert forall k :: 1 <= k < |ds| ==> ds[k] == ds[1..][k - 1];
    }
  }

  /** The `index` line: at most one, from the first DirectoryIndex. */
  function IndexLines(ds: seq<Directive>): seq<string> {
    match FirstIndex(ds)
    case Some(v) => ["index " + v + ";"]
    case None => []
  }

  // ---------------------------------------------------------------------------
  // Access control, PHP settings, error documents, redirects

  /** The line an access-control entry emits: only the "all" forms have one;
      access granted to all is left as a comment. */
  function AccessLine(a: Access): (r: Option<string>)
    ensures r == Some("deny all;") <==>
      (a.kind == Require && a.value == "all denied") || (a.kind == Deny && a.value == "all")
    ensures r == Some("# allow all;") <==>
      (a.kind == Require && a.value == "all granted") || (a.kind == Allow && a.value == "all")
    ensures r.None? || r == Some("deny all;") || r == Some("# allow all;")
  {
    if a.kind == Require && a.value == "all granted" then Some("# allow all;")
    else if a.kind == Require && a.value == "all denied" then Some("deny all;")
    else if a.kind == Allow && a.value == "all" then Some("# allow all;")
    else if a.kind == Deny && a.value == "all" then Some("deny all;")
    else None
  }

  function PhpLine(s: PhpSetting): string {
    "# php_admin_value[" + s.name + "] = " + s.value
  }

  function ErrorLine(d: ErrorDocument): string {
    "error_page " + d.code + " " + d.target + ";"
  }

  function RedirectLine(r: Redirect): string {
    "rewrite " + r.from + " " + r.to + " " + (if r.code == "301" then "permanent" else "redirect") + ";"
  }

  /** A redirect is permanent exactly when its code is '301'. */
  lemma RedirectPermanent(r: Redirect)
    ensures RedirectLine(r) == "rewrite " + r.from + " " + r.to + " permanent;" <==> r.code == "301"
    ensures RedirectLine(r) == "rewrite " + r.from + " " + r.to + " redirect;" <==> r.code != "301"
  {
    var n := |"rewrite " + r.from + " " + r.to + " "|;
    assert ("rewrite " + r.from + " " + r.to + " permanent;")[n] == 'p';
    assert ("rewrite " + r.from + " " + r.to + " redirect;")[n] == 'r';
  }

  // ---------------------------------------------------------------------------
  // Rewrite rules

  /** The Nginx flag of a RewriteRule's flags, by precedence: any L, then
      R=301 or R,301, then any R; all ignoring case. */
  function RewriteFlags(flags: string): (r: string)
    ensures r == "last" <==> ContainsIgnoreCase(flags, "L")
  {
    if ContainsIgnoreCase(flags, "L") then "last"
    else if ContainsIgnoreCase(flags, "R=301") || ContainsIgnoreCase(flags, "R,301") then "permanent"
    else if ContainsIgnoreCase(flags, "R") then "redirect"
    else ""
  }

  /** A rule gets no flag exactly when its flags hold neither L nor R. */
  lemma RewriteFlagsNone(flags: string)
    ensures RewriteFlags(flags) == "" <==> !ContainsIgnoreCase(flags, "L") && !ContainsIgnoreCase(flags, "R")
  {
    if ContainsIgnoreCase(flags, "R=301") {
      assert LowerStr("R=301")[..1] == LowerStr("R");
      ContainsPrefix(LowerStr(flags), LowerStr("R=301"), LowerStr("R"));
    }
    if ContainsIgnoreCase(flags, "R,301") {
      assert LowerStr("R,301")[..1] == LowerStr("R");
      ContainsPrefix(LowerStr(flags), LowerStr("R,301"), LowerStr("R"));
    }
  }

  /** A pattern without its anchors: every leading '^' and trailing '$'
      removed. */
  function StripAnchors(p: string): (r: string)
    ensures r == [] || (r[0] != '^' && r[|r| - 1] != '$')
    ensures forall c :: c in r ==> c in p
  {
    var lead := LTrimChar(p, '^');
    var core := RTrimChar(lead, '$');
    assert core == [] || core[0] == lead[0];
    core
  }

  /** Anchoring a stripped pattern at the start and stripping it again gives
      it back. */
  lemma StripAnchoredStart(core: string)
    requires core == [] || (core[0] != '^' && core[|core| - 1] != '$')
    ensures StripAnchors("^" + core) == core
  {
    LTrimCharLead(core, '^');
    LTrimCharNone(core, '^');
    RTrimCharNone(core, '$');
  }

  /** So does anchoring it at both ends. */
  lemma StripAnchoredBoth(core: string)
    requires core == [] || (core[0] != '^' && core[|core| - 1] != '$')
    ensures StripAnchors("^" + core + "$") == core
  {
    var trailed := core + ['$'];
    LTrimCharLead(trailed, '^');
    LTrimCharNone(trailed, '^');
    RTrimCharTrail(core, '$');
    assert "^" + core + "$" == ['^'] + trailed;
  }

  /** convertPattern: the pattern without its anchors, with one '^' put
      back (the replacement of `\.` by itself changes nothing). */
  function ConvertPattern(p: string): (r: string)
    ensures r != [] && r[0] == '^' && r[|r| - 1] != '$'
    ensures |r| >= 2 ==> r[1] != '^'
  {
    var core := StripAnchors(p);
    ReplaceAllSelf(core, "\\.");
    "^" + ReplaceAll(core, "\\.", "\\.")
  }

  /** Converting a converted pattern changes nothing. */
  lemma ConvertPatternIdempotent(p: string)
    ensures ConvertPattern(ConvertPattern(p)) == ConvertPattern(p)
  {
    var core := StripAnchors(p);
    ReplaceAllSelf(core, "\\.");
    StripAnchoredStart(core);
  }

  /** The catch-all patterns of a front controller. */
  predicate IsCatchAll(pattern: string) {
    pattern == "^(.*)$" || pattern == "(.*)"
  }

  /** The three kinds of line a rewrite rule becomes. */
  datatype NginxRule =
    | TryFiles(target: string)
    | SkipComment
    | Rewrite(pattern: string, target: string, flag: string)

  function Render(r: NginxRule): (line: string)
    ensures line != [] && line[0] in {'t', '#', 'r'}
  {
    match r
    case TryFiles(target) => "try_files $uri $uri/ /" + target + "?$args;"
    case SkipComment => "# Skip if accessing index.php directly"
    case Rewrite(pattern, target, flag) =>
      if flag != "" then "rewrite " + pattern + " " + target + " " + flag + ";"
      else "rewrite " + pattern + " " + target + ";"
  }

  /** convertRewriteRule, before rendering: a front-controller rule becomes
      try_files, the usual WordPress index.php rule a comment, any other a
      rewrite with the converted pattern and the Nginx flag. */
  function ConvertRule(rule: RewriteRule): (r: NginxRule)
    ensures r.TryFiles? <==> IsCatchAll(rule.pattern) && StartsWith(rule.target, "index.php")
    ensures r.SkipComment? <==> rule.pattern == "^index\\.php$" && rule.target == "-"
    ensures r.TryFiles? ==> r.target == rule.target
    ensures r.Rewrite? ==> r == Rewrite(ConvertPattern(rule.pattern), rule.target, RewriteFlags(rule.flags))
  {
    if IsCatchAll(rule.pattern) && rule.target == "index.php" then TryFiles("index.php")
    else if IsCatchAll(rule.pattern) && StartsWith(rule.target, "index.php") then TryFiles(rule.target)
    else if rule.pattern == "^index\\.php$" && rule.target == "-" then SkipComment
    else Rewrite(ConvertPattern(rule.pattern), rule.target, RewriteFlags(rule.flags))
  }

  /** convertRewriteRule */
  function ConvertRewriteRule(rule: RewriteRule): string {
    Render(ConvertRule(rule))
  }

  /** `if ($nginxRule)`: the rule's line when it is a non-empty string,
      which every converted rule is. */
  function RuleLine(rule: RewriteRule): Option<string> {
    var line := ConvertRewriteRule(rule);
    if Truthy(line) then Some(line) else None
  }

  /** Every rewrite rule contributes exactly its converted line. */
  lemma EveryRuleEmits(rules: seq<RewriteRule>)
    ensures Pick(rules, RuleLine) == Map(rules, ConvertRewriteRule)
  {
    PickEverything(rules, RuleLine, ConvertRewriteRule);
  }

  // ---------------------------------------------------------------------------
  // generate

  /** A section: a blank line and its title before its lines, and nothing
      at all when its bucket is empty. */
  function Section(present: bool, title: string, body: seq<string>): seq<string> {
    if present then ["", title] + body else []
  }

  /** The lines generate joins. */
  function GenerateLines(p: Parsed): seq<string> {
    Header + IndexLines(p.directives)
    + Section(p.accessControl != [], "# Access Control", Pick(p.accessControl, AccessLine))
    + Section(p.phpSettings != [], "# PHP Settings (add to php-fpm pool config or php.ini)", Map(p.phpSettings, PhpLine))
    + Section(p.rewriteRules != [], "# Rewrite Rules", Pick(p.rewriteRules, RuleLine))
    + Section(p.errorDocuments != [], "# Error Documents", Map(p.errorDocuments, ErrorLine))
    + Section(p.redirects != [], "# Redirects", Map(p.redirects, RedirectLine))
  }

  /** The `index` line of the first DirectoryIndex (the loop that breaks on it). */
  method IndexSection(ds: seq<Directive>) returns (lines: seq<string>)
    ensures lines == IndexLines(ds)
  {
    var i := 0;
    while i < |ds| && !IsDirectoryIndex(ds[i])
      invariant i <= |ds| && FirstIndex(ds[i..]) == FirstIndex(ds)
    {
      assert ds[i..][1..] == ds[i + 1..];
      i := i + 1;
    }
    if i < |ds| {
      lines := ["index " + ds[i].value + ";"];
    } else {
      lines := [];
    }
  }

  method AccessSection(acs: seq<Access>) returns (lines: seq<string>)
    ensures lines == Pick(acs, AccessLine)
  {
    lines := [];
    for i := 0 to |acs|
      invariant lines == Pick(acs[..i], AccessLine)
    {
      TakeSnoc(acs, i);
      PickSnoc(acs[..i], acs[i], AccessLine);
      var a := acs[i];
      if a.kind == Require && a.value == "all granted" {
        lines := lines + ["# allow all;"];
      } else if a.kind == Require && a.value == "all denied" {
        lines := lines + ["deny all;"];
      } else if a.kind == Allow && a.value == "all" {
        lines := lines + ["# allow all;"];
      } else if a.kind == Deny && a.value == "all" {
        lines := lines + ["deny all;"];
      }
    }
    TakeAll(acs);
  }

  method PhpSection(settings: seq<PhpSetting>) returns (lines: seq<string>)
    ensures lines == Map(settings, PhpLine)
  {
    lines := [];
    for i := 0 to |settings|
      invariant lines == Map(settings[..i], PhpLine)
    {
      TakeSnoc(settings, i);
      MapSnoc(settings[..i], settings[i], PhpLine);
      lines := lines + ["# php_admin_value[" + settings[i].name + "] = " + settings[i].value];
    }
    TakeAll(settings);
  }

  method RuleSection(rules: seq<RewriteRule>) returns (lines: seq<string>)
    ensures lines == Pick(rules, RuleLine)
  {
    lines := [];
    for i := 0 to |rules|
      invariant lines == Pick(rules[..i], RuleLine)
    {
      TakeSnoc(rules, i);
      PickSnoc(rules[..i], rules[i], RuleLine);
      var line := ConvertRewriteRule(rules[i]);
      if Truthy(line) {
        lines := lines + [line];
      }
    }
    TakeAll(rules);
  }

  method ErrorSection(docs: seq<ErrorDocument>) returns (lines: seq<string>)
    ensures lines == Map(docs, ErrorLine)
  {
    lines := [];
    for i := 0 to |docs|
      invariant lines == Map(docs[..i], ErrorLine)
    {
      TakeSnoc(docs, i);
      MapSnoc(docs[..i], docs[i], ErrorLine);
      lines := lines + ["error_page " + docs[i].code + " " + docs[i].target + ";"];
    }
    TakeAll(docs);
  }

  method RedirectSection(redirects: seq<Redirect>) returns (lines: seq<string>)
    ensures lines == Map(redirects, RedirectLine)
  {
    lines := [];
    for i := 0 to |redirects|
      invariant lines == Map(redirects[..i], RedirectLine)
    {
      TakeSnoc(redirects, i);
      MapSnoc(redirects[..i], redirects[i], RedirectLine);
      var r := redirects[i];
      var code := if r.code == "301" then "permanent" else "redirect";
      lines := lines + ["rewrite " + r.from + " " + r.to + " " + code + ";"];
    }
    TakeAll(redirects);
  }

  /** generate: the configuration text, its lines joined by newlines. */
  method Generate(p: Parsed) returns (out: string)
    ensures out == Join(GenerateLines(p), "\n")
  {
    var index := IndexSection(p.directives);
    var access, php, rules, errors, redirects := [], [], [], [], [];
    if p.accessControl != [] {
      var lines := AccessSection(p.accessControl);
      access := ["", "# Access Control"] + lines;
    }
    if p.phpSettings != [] {
      var lines := PhpSection(p.phpSettings);
      php := ["", "# PHP Settings (add to php-fpm pool config or php.ini)"] + lines;
    }
    if p.rewriteRules != [] {
      var lines := RuleSection(p.rewriteRules);
      rules := ["", "# Rewrite Rules"] + lines;
    }
    if p.errorDocuments != [] {
      var lines := ErrorSection(p.errorDocuments);
      errors := ["", "# Error Documents"] + lines;
    }
    if p.redirects != [] {
      var lines := RedirectSection(p.redirects);
      redirects := ["", "# Redirects"] + lines;
    }
    var config := Header + index + access + php + rules + errors + redirects;
    out := Join(config, "\n");
  }

  // ---------------------------------------------------------------------------
  // Properties of the whole output

  /** The output opens with the two fixed comment lines. */
  lemma GenerateOpensWithHeader(p: Parsed)
    ensures GenerateLines(p)[..3] == Header
    ensures var h := Header[0] + "\n" + Header[1];
      |h| <= |Join(GenerateLines(p), "\n")| && Join(GenerateLines(p), "\n")[..|h|] == h
  {
    var lines := GenerateLines(p);
    assert lines[..3] == Header;
    assert lines[0] == Header[0] && lines[1] == Header[1];
    JoinFirstTwo(lines, "\n");
  }

  /** How many lines each part contributes: at most one index line, every
      rewrite rule, PHP setting, error document and redirect one line each,
      and two more per non-empty section. */
  lemma GenerateLineCount(p: Parsed)
    ensures |GenerateLines(p)| ==
      3 + |IndexLines(p.directives)|
      + (if p.accessControl != [] then 2 + |Pick(p.accessControl, AccessLine)| else 0)
      + (if p.phpSettings != [] then 2 + |p.phpSettings| else 0)
      + (if p.rewriteRules != [] then 2 + |p.rewriteRules| else 0)
      + (if p.errorDocuments != [] then 2 + |p.errorDocuments| else 0)
      + (if p.redirects != [] then 2 + |p.redirects| else 0)
    ensures |IndexLines(p.directives)| <= 1
  {
    EveryRuleEmits(p.rewriteRules);
  }

  lemma JoinHeader()
    ensures Join(Header, "\n") == Header[0] + "\n" + Header[1] + "\n"
  {
    var h0, h1 := Header[0], Header[1];
    assert Header[1..] == [h1, ""] && [h1, ""][1..] == [""];
    assert Join([h1, ""], "\n") == h1 + "\n" + "";
  }

  /** A configuration with no directives, access control, settings, rules,
      error documents or redirects is the two comment lines alone, each
      ended by a newline. */
  lemma EmptyConfiguration(p: Parsed)
    requires p == Parsed([], [], [], [], [], [])
    ensures Join(GenerateLines(p), "\n") == Header[0] + "\n" + Header[1] + "\n"
  {
    assert IndexLines([]) == [];
    assert GenerateLines(p) == Header;
    JoinHeader();
  }
}
