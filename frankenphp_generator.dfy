/** The FrankenPHP generator (src/ServerConfig/FrankenPHPGenerator.php): a
    parsed .htaccess becomes a Caddyfile with one `localhost` site block.
    Every line inside the block is tab-indented. */
module FrankenPHPGenerator {
  import opened Wrappers
  import opened Text
  import opened Seqs
  import opened ApacheParser
  import Nginx = NginxGenerator

  /** The global options block and the opening of the site block. */
  const Prologue: seq<string> := ["# Converted from Apache configuration for FrankenPHP/Caddy",
                                  "# Manual review required",
                                  "",
                                  "{",
                                  "\t# Global options",
                                  "\tfrankenphp",
                                  "}",
                                  "",
                                  "localhost {"]

  const FileServer: seq<string> := ["\troot * /var/www/html", "\tencode gzip", ""]
  const PhpHandler: seq<string> := ["", "\t# PHP handler", "\tphp_server", ""]

  // ---------------------------------------------------------------------------
  // Rewrite rules

  /** convertPattern: the pattern without its anchors, anchored at both
      ends. */
  function ConvertPattern(p: string): (r: string)
    ensures |r| >= 2 && r[0] == '^' && r[|r| - 1] == '$'
  {
    "^" + Nginx.StripAnchors(p) + "$"
  }

  /** The Caddy pattern is the Nginx pattern anchored at the end. */
  lemma ConvertPatternExtendsNginx(p: string)
    ensures ConvertPattern(p) == Nginx.ConvertPattern(p) + "$"
  {
    ReplaceAllSelf(Nginx.StripAnchors(p), "\\.");
  }

  /** Converting a converted pattern changes nothing. */
  lemma ConvertPatternIdempotent(p: string)
    ensures ConvertPattern(ConvertPattern(p)) == ConvertPattern(p)
  {
    Nginx.StripAnchoredBoth(Nginx.StripAnchors(p));
  }

  /** The two kinds of rule Caddy gets. */
  datatype CaddyRule =
    | TryFiles
    | Rewrite(pattern: string, target: string)

  /** convertRewriteRule, before rendering: nothing for the usual WordPress
      index.php rule, try_files for a catch-all pattern whose target names
      index.php anywhere, a rewrite matcher for any other rule. */
  function ConvertRule(rule: RewriteRule): (r: Option<CaddyRule>)
    ensures r.None? <==> rule.pattern == "^index\\.php$" && rule.target == "-"
    ensures r == Some(TryFiles) <==> Nginx.IsCatchAll(rule.pattern) && Contains(rule.target, "index.php")
    ensures r.Some? && r.value.Rewrite? ==> r.value == Rewrite(ConvertPattern(rule.pattern), rule.target)
  {
    if rule.pattern == "^index\\.php$" && rule.target == "-" then None
    else if Nginx.IsCatchAll(rule.pattern) && Contains(rule.target, "index.php") then Some(TryFiles)
    else Some(Rewrite(ConvertPattern(rule.pattern), rule.target))
  }

  /** The four lines of a rewrite matcher. */
  function RewriteParts(pattern: string, target: string): seq<string> {
    ["@rewrite {", "\tpath_regexp " + pattern, "}", "rewrite @rewrite " + target]
  }

  function Render(r: CaddyRule): (text: string)
    ensures text != [] && text[0] in {'t', '@'}
  {
    match r
    case TryFiles => "try_files" + " {path}" + " {path}/" + " /index.php?{query}"
    case Rewrite(pattern, target) =>
      "@rewrite {" + "\n" + "\tpath_regexp " + pattern + "\n" + "}" + "\n" + "rewrite @rewrite " + target
  }

  /** convertRewriteRule */
  function ConvertRewriteRule(rule: RewriteRule): Option<string> {
    match ConvertRule(rule)
    case None => None
    case Some(r) => Some(Render(r))
  }

  function Indent(line: string): string {
    "\t" + line
  }

  /** The lines a rule contributes: its text, when it has a non-empty one,
      cut at newlines and indented. */
  function RuleLines(rule: RewriteRule): seq<string> {
    match ConvertRewriteRule(rule)
    case Some(text) => if Truthy(text) then Map(Split(text, '\n'), Indent) else []
    case None => []
  }

  /** A rewrite matcher's text is its four lines joined by newlines; when
      the pattern and target hold no newline, explode gives them back. */
  lemma RewriteLines(pattern: string, target: string)
    requires '\n' !in pattern && '\n' !in target
    ensures Split(Render(Rewrite(pattern, target)), '\n') == RewriteParts(pattern, target)
  {
    var p0, p1, p2, p3 := "@rewrite {", "\tpath_regexp " + pattern, "}", "rewrite @rewrite " + target;
    var d := '\n';
    RenderRewrite(pattern, target);
    assert d !in p0 && d !in p2;
    assert d !in p1 && d !in p3 by {
      assert d !in "\tpath_regexp " && d !in "rewrite @rewrite ";
    }
    SplitNoDelimiter(p3, d);
    SplitPrefix(p2, p3, d);
    SplitPrefix(p1, p2 + [d] + p3, d);
    SplitPrefix(p0, p1 + [d] + (p2 + [d] + p3), d);
  }

  /** A rewrite matcher's text, grouped from the right. */
  lemma RenderRewrite(pattern: string, target: string)
    ensures Render(Rewrite(pattern, target)) ==
      "@rewrite {" + "\n" + (("\tpath_regexp " + pattern) + "\n" + ("}" + "\n" + ("rewrite @rewrite " + target)))
  {
  }

  /** The usual WordPress index.php rule contributes nothing. */
  lemma SkippedRule(rule: RewriteRule)
    requires rule.pattern == "^index\\.php$" && rule.target == "-"
    ensures RuleLines(rule) == []
  {
  }

  /** The try_files directive is a single line. */
  lemma TryFilesOneLine()
    ensures Split(Render(TryFiles), '\n') == [Render(TryFiles)]
  {
    var text := Render(TryFiles);
    assert '\n' !in "try_files" && '\n' !in " {path}";
    assert '\n' !in " {path}/" && '\n' !in " /index.php?{query}";
    assert '\n' !in text;
    SplitNoDelimiter(text, '\n');
  }

  /** A catch-all index.php rule contributes one indented try_files line. */
  lemma TryFilesRule(rule: RewriteRule)
    requires Nginx.IsCatchAll(rule.pattern) && Contains(rule.target, "index.php")
    ensures RuleLines(rule) == [Indent(Render(TryFiles))]
  {
    assert ConvertRule(rule) == Some(TryFiles);
    TryFilesOneLine();
    MapOne(Render(TryFiles), Indent);
  }

  /** Any other rule whose pattern and target hold no newline contributes the
      four indented lines of a rewrite matcher. */
  lemma RewriteRuleBlock(rule: RewriteRule)
    requires ConvertRule(rule).Some? && ConvertRule(rule).value.Rewrite?
    requires '\n' !in rule.pattern && '\n' !in rule.target
    ensures RuleLines(rule) == Map(RewriteParts(ConvertPattern(rule.pattern), rule.target), Indent)
    ensures |RuleLines(rule)| == 4
  {
    var pattern := ConvertPattern(rule.pattern);
    assert '\n' !in pattern;
    RewriteLines(pattern, rule.target);
  }

  // ---------------------------------------------------------------------------
  // The other sections

  function PhpLine(s: PhpSetting): string {
    "\t# " + s.name + " = " + s.value
  }

  /** The `file_server` block of the first DirectoryIndex: its files split at
      spaces and joined again. */
  function IndexBlock(ds: seq<Directive>): seq<string> {
    match Nginx.FirstIndex(ds)
    case Some(v) => ["\tfile_server {", "\t\tindex " + Join(Split(v, ' '), " "), "\t}"]
    case None => []
  }

  /** Splitting the DirectoryIndex files at spaces and joining them again
      gives back the directive's value. */
  lemma IndexBlockValue(ds: seq<Directive>)
    ensures Nginx.FirstIndex(ds).Some? ==>
      IndexBlock(ds) == ["\tfile_server {", "\t\tindex " + Nginx.FirstIndex(ds).value, "\t}"]
    ensures Nginx.FirstIndex(ds).None? ==> IndexBlock(ds) == []
  {
    if Nginx.FirstIndex(ds).Some? {
      JoinSplit(Nginx.FirstIndex(ds).value, ' ');
    }
  }

  /** The four lines of an error page: a status matcher and a rewrite. */
  function ErrorLines(d: ErrorDocument): (lines: seq<string>)
    ensures |lines| == 4
  {
    ["\t\t@" + d.code + " {",
     "\t\t\texpression {http.error.status_code} == " + d.code,
     "\t\t}",
     "\t\trewrite @" + d.code + " " + d.target]
  }

  function RedirectLine(r: Redirect): string {
    "\tredir " + r.from + " " + r.to + " " + (if r.code == "301" then "permanent" else "")
  }

  /** A redirect is marked permanent exactly when its code is '301';
      otherwise the line ends in a bare space. */
  lemma RedirectPermanent(r: Redirect)
    ensures RedirectLine(r) == "\tredir " + r.from + " " + r.to + " permanent" <==> r.code == "301"
    ensures RedirectLine(r) == "\tredir " + r.from + " " + r.to + " " <==> r.code != "301"
  {
    var n := |"\tredir " + r.from + " " + r.to + " "|;
    assert |"\tredir " + r.from + " " + r.to + " permanent"| == n + 9;
  }

  predicate IsDenyAll(a: Access) {
    a.kind == Deny && a.value == "all"
  }

  /** Only Deny from all has lines: a comment and `respond 403`. */
  function AccessLines(a: Access): (lines: seq<string>)
    ensures lines != [] <==> IsDenyAll(a)
  {
    if IsDenyAll(a) then ["\t# Deny all access", "\trespond 403"] else []
  }

  function CountDenyAll(acs: seq<Access>): nat {
    if acs == [] then 0
    else CountDenyAll(acs[..|acs| - 1]) + (if IsDenyAll(acs[|acs| - 1]) then 1 else 0)
  }

  /** The access lines are two per Deny from all entry, each the comment or
      `respond 403`; Allow, Order and Require entries give none. */
  lemma {:induction false} AccessBlock(acs: seq<Access>)
    ensures |FlatMap(acs, AccessLines)| == 2 * CountDenyAll(acs)
    ensures forall i :: 0 <= i < |FlatMap(acs, AccessLines)| ==>
      FlatMap(acs, AccessLines)[i] in {"\t# Deny all access", "\trespond 403"}
  {
    if acs != [] {
      AccessBlock(acs[..|acs| - 1]);
    }
  }

  // ---------------------------------------------------------------------------
  // generate

  function Section(present: bool, lines: seq<string>): seq<string> {
    if present then lines else []
  }

  /** The lines generate joins. */
  function GenerateLines(p: Parsed): seq<string> {
    Prologue
    + Section(p.phpSettings != [], ["\t# PHP Settings"] + Map(p.phpSettings, PhpLine) + [""])
    + FileServer
    + IndexBlock(p.directives)
    + PhpHandler
    + Section(p.rewriteRules != [], ["\t# Rewrite Rules"] + FlatMap(p.rewriteRules, RuleLines) + [""])
    + Section(p.errorDocuments != [],
              ["\t# Error Pages", "\thandle_errors {"] + FlatMap(p.errorDocuments, ErrorLines) + ["\t}", ""])
    + Section(p.redirects != [], ["\t# Redirects"] + Map(p.redirects, RedirectLine) + [""])
    + Section(p.accessControl != [], ["\t# Access Control"] + FlatMap(p.accessControl, AccessLines))
    + ["}"]
  }

  method PhpSection(settings: seq<PhpSetting>) returns (lines: seq<string>)
    ensures lines == Map(settings, PhpLine)
  {
    lines := [];
    for i := 0 to |settings|
      invariant lines == Map(settings[..i], PhpLine)
    {
      TakeSnoc(settings, i);
      MapSnoc(settings[..i], settings[i], PhpLine);
      lines := lines + ["\t# " + settings[i].name + " = " + settings[i].value];
    }
    TakeAll(settings);
  }

  /** The `file_server` block (the loop that breaks on the first DirectoryIndex). */
  method IndexSection(ds: seq<Directive>) returns (lines: seq<string>)
    ensures lines == IndexBlock(ds)
  {
    var i := 0;
    while i < |ds| && !Nginx.IsDirectoryIndex(ds[i])
      invariant i <= |ds| && Nginx.FirstIndex(ds[i..]) == Nginx.FirstIndex(ds)
    {
      assert ds[i..][1..] == ds[i + 1..];
      i := i + 1;
    }
    if i < |ds| {
      var files := Split(ds[i].value, ' ');
      lines := ["\tfile_server {", "\t\tindex " + Join(files, " "), "\t}"];
    } else {
      lines := [];
    }
  }

  /** The indented lines of one rule's text. */
  method IndentLines(text: string) returns (lines: seq<string>)
    ensures lines == Map(Split(text, '\n'), Indent)
  {
    var parts := Split(text, '\n');
    lines := [];
    for j := 0 to |parts|
      invariant lines == Map(parts[..j], Indent)
    {
      TakeSnoc(parts, j);
      MapSnoc(parts[..j], parts[j], Indent);
      lines := lines + ["\t" + parts[j]];
    }
    TakeAll(parts);
  }

  method RuleSection(rules: seq<RewriteRule>) returns (lines: seq<string>)
    ensures lines == FlatMap(rules, RuleLines)
  {
    lines := [];
    for i := 0 to |rules|
      invariant lines == FlatMap(rules[..i], RuleLines)
    {
      TakeSnoc(rules, i);
      FlatMapSnoc(rules[..i], rules[i], RuleLines);
      var rule := ConvertRewriteRule(rules[i]);
      if rule.Some? && Truthy(rule.value) {
        var more := IndentLines(rule.value);
        lines := lines + more;
      } else {
        assert RuleLines(rules[i]) == [];
      }
    }
    TakeAll(rules);
  }

  method ErrorSection(docs: seq<ErrorDocument>) returns (lines: seq<string>)
    ensures lines == FlatMap(docs, ErrorLines)
  {
    lines := [];
    for i := 0 to |docs|
      invariant lines == FlatMap(docs[..i], ErrorLines)
    {
      TakeSnoc(docs, i);
      FlatMapSnoc(docs[..i], docs[i], ErrorLines);
      var d := docs[i];
      lines := lines + ["\t\t@" + d.code + " {",
                        "\t\t\texpression {http.error.status_code} == " + d.code,
                        "\t\t}",
                        "\t\trewrite @" + d.code + " " + d.target];
    }
    TakeAll(docs);
  }

  method RedirectSection(redirects: seq<Redirect>) returns (lines: seq<string>)
    ensures lines == Map(redirects, RedirectLine)
  {
    lines := [];
    for i := 0 to |redirects|
      invariant lines == Map(redirects[..i], RedirectLine)
    {
      TakeSnoc(redirects, i);
      MapSnoc(redirects[..i], redirects[i], RedirectLine);
      var r := redirects[i];
      var permanent := if r.code == "301" then "permanent" else "";
      lines := lines + ["\tredir " + r.from + " " + r.to + " " + permanent];
    }
    TakeAll(redirects);
  }

  method AccessSection(acs: seq<Access>) returns (lines: seq<string>)
    ensures lines == FlatMap(acs, AccessLines)
  {
    lines := [];
    for i := 0 to |acs|
      invariant lines == FlatMap(acs[..i], AccessLines)
    {
      TakeSnoc(acs, i);
      FlatMapSnoc(acs[..i], acs[i], AccessLines);
      if acs[i].kind == Deny && acs[i].value == "all" {
        lines := lines + ["\t# Deny all access", "\trespond 403"];
      }
    }
    TakeAll(acs);
  }

  /** generate: the Caddyfile text, its lines joined by newlines. */
  method Generate(p: Parsed) returns (out: string)
    ensures out == Join(GenerateLines(p), "\n")
  {
    var php, rules, errors, redirects, access := [], [], [], [], [];
    if p.phpSettings != [] {
      var lines := PhpSection(p.phpSettings);
      php := ["\t# PHP Settings"] + lines + [""];
    }
    var index := IndexSection(p.directives);
    if p.rewriteRules != [] {
      var lines := RuleSection(p.rewriteRules);
      rules := ["\t# Rewrite Rules"] + lines + [""];
    }
    if p.errorDocuments != [] {
      var lines := ErrorSection(p.errorDocuments);
      errors := ["\t# Error Pages", "\thandle_errors {"] + lines + ["\t}", ""];
    }
    if p.redirects != [] {
      var lines := RedirectSection(p.redirects);
      redirects := ["\t# Redirects"] + lines + [""];
    }
    if p.accessControl != [] {
      var lines := AccessSection(p.accessControl);
      access := ["\t# Access Control"] + lines;
    }
    var config := Prologue + php + FileServer + index + PhpHandler + rules + errors + redirects + access + ["}"];
    out := Join(config, "\n");
  }

  // ---------------------------------------------------------------------------
  // Properties of the whole output

  /** The output opens with the global options and the site block, and the
      site block's closing brace is its last line. */
  lemma GenerateFrame(p: Parsed)
    ensures |GenerateLines(p)| > |Prologue| && GenerateLines(p)[..|Prologue|] == Prologue
    ensures GenerateLines(p)[|GenerateLines(p)| - 1] == "}"
  {
  }

  /** Every error page takes four lines of the handle_errors block. */
  lemma ErrorBlockLength(docs: seq<ErrorDocument>)
    ensures |FlatMap(docs, ErrorLines)| == 4 * |docs|
  {
    FlatMapLength(docs, ErrorLines, 4);
  }
}
