/** The server configuration analyzer (src/Analyzer/ServerConfigAnalyzer.php):
    `analyze` reads a configuration, parses an Apache one and generates the
    target configuration; its own Apache 2.2-to-2.4 upgrade rewrites the
    access directives line for line, so the output keeps one line per input
    line. */
module ServerConfigAnalyzer {
  import opened Wrappers
  import opened Text
  import opened Seqs
  import opened ApacheParser
  import opened AccessPatterns
  import Nginx = NginxGenerator
  import Caddy = FrankenPHPGenerator

  // ---------------------------------------------------------------------------
  // upgradeApache22to24, the line-preserving variant

  lemma {:induction false} SpacesOnly(n: nat)
    ensures forall i :: 0 <= i < |Repeat(" ", n)| ==> Repeat(" ", n)[i] == ' '
  {
    if n > 0 {
      SpacesOnly(n - 1);
      assert Repeat(" ", n) == " " + Repeat(" ", n - 1);
    }
  }

  /** str_repeat(' ', strlen($line) - strlen(ltrim($line))): one space for
      every character ltrim strips. */
  function Indent(line: string): (r: string)
    ensures |r| == |Leading(line)|
    ensures forall i :: 0 <= i < |r| ==> r[i] == ' '
  {
    SpacesOnly(|line| - |LTrim(line)|);
    Repeat(" ", |line| - |LTrim(line)|)
  }

  /** The access directive a trimmed line holds, with the patterns tried in
      the upgrade's order; a host form carries its capture group 1. */
  datatype Directive = OrderLine | AllowAll | DenyAll | AllowHost(group: string) | DenyHost(group: string) | Plain

  function DirectiveOf(t: string): (d: Directive)
    ensures (d.AllowHost? || d.DenyHost?) ==> d.group != [] && '\n' !in d.group && EndsWith(t, d.group)
  {
    if IsOrder(t) then OrderLine
    else if FromAll(t, "allow") then AllowAll
    else if FromAll(t, "deny") then DenyAll
    else if FromHost(t, "allow").Some? then AllowHost(FromHost(t, "allow").value)
    else if FromHost(t, "deny").Some? then DenyHost(FromHost(t, "deny").value)
    else Plain
  }

  /** What an `Order` line becomes. */
  const CommentTail := " (converted to Require below)"

  /** The `Require` directive that replaces an access directive. */
  function RequireText(d: Directive): string {
    match d
    case AllowAll => "Require all granted"
    case DenyAll => "Require all denied"
    case AllowHost(group) => "Require host " + Trim(group)
    case DenyHost(group) => "Require not host " + Trim(group)
    case _ => ""
  }

  /** What the upgrade emits for one line. */
  function UpgradeLine(line: string): string {
    var d := DirectiveOf(Trim(line));
    if d.OrderLine? then "# " + line + CommentTail
    else if d.Plain? then line
    else Indent(line) + RequireText(d)
  }

  /** The upgraded text: every line of `content` rewritten on its own. */
  function UpgradeText(content: string): string {
    Join(Map(Split(content, '\n'), UpgradeLine), "\n")
  }

  /** A trimmed line that ends in a capture group ends in a character trim
      keeps, so the trimmed host is never empty. */
  lemma HostNotEmpty(line: string, group: string)
    requires EndsWith(Trim(line), group) && group != []
    ensures Trim(group) != [] && !IsTrimChar(Trim(group)[|Trim(group)| - 1])
  {
    var t := Trim(line);
    assert group[|group| - 1] == t[|t| - 1];
    TrimKeepsLast(group);
  }

  /** A `Require` directive starts with "Require " and ends in a character
      trim keeps, once its host does. */
  lemma RequireTextEnds(d: Directive)
    requires !d.OrderLine? && !d.Plain?
    requires (d.AllowHost? || d.DenyHost?) ==> Trim(d.group) != [] && !IsTrimChar(Trim(d.group)[|Trim(d.group)| - 1])
    ensures StartsWith(RequireText(d), "Require ")
    ensures !IsTrimChar(RequireText(d)[|RequireText(d)| - 1])
  {
  }

  /** A rewritten line is its indent followed by a `Require` directive with
      nothing trim strips at either end. */
  lemma RequireParts(line: string)
    requires !DirectiveOf(Trim(line)).OrderLine? && !DirectiveOf(Trim(line)).Plain?
    ensures UpgradeLine(line) == Indent(line) + Trim(UpgradeLine(line))
    ensures StartsWith(Trim(UpgradeLine(line)), "Require ")
  {
    var d := DirectiveOf(Trim(line));
    var x := RequireText(d);
    if d.AllowHost? || d.DenyHost? {
      HostNotEmpty(line, d.group);
    }
    RequireTextEnds(d);
    assert UpgradeLine(line) == Indent(line) + x;
    TrimPadded(Indent(line), x, "");
    assert Indent(line) + x + "" == Indent(line) + x;
  }

  /** The rewritten access directives keep the indent width of the line
      they replace: one space per stripped leading character. */
  lemma IndentKept(line: string)
    requires !DirectiveOf(Trim(line)).OrderLine? && !DirectiveOf(Trim(line)).Plain?
    ensures |Leading(UpgradeLine(line))| == |Leading(line)|
    ensures forall i :: 0 <= i < |Leading(UpgradeLine(line))| ==> UpgradeLine(line)[i] == ' '
  {
    RequireParts(line);
    var r := UpgradeLine(line);
    var x := Trim(r);
    assert r == Indent(line) + x;
    LTrimPadded(Indent(line), x);
  }

  /** An `Order` line is kept, commented out. */
  lemma OrderCommented(line: string)
    requires IsOrder(Trim(line))
    ensures UpgradeLine(line) == "# " + line + CommentTail
  {
  }

  /** "Allow from all" and "Deny from all" lines also match the host
      patterns; testing them first gives `Require all granted` or
      `Require all denied` rather than a `Require host all...` line. */
  lemma AllBeforeHost(line: string)
    requires '\n' !in line && !IsOrder(Trim(line))
    ensures FromAll(Trim(line), "allow") ==>
      FromHost(Trim(line), "allow").Some? && UpgradeLine(line) == Indent(line) + "Require all granted"
    ensures !FromAll(Trim(line), "allow") && FromAll(Trim(line), "deny") ==>
      FromHost(Trim(line), "deny").Some? && UpgradeLine(line) == Indent(line) + "Require all denied"
  {
    var t := Trim(line);
    if FromAll(t, "allow") || FromAll(t, "deny") {
      assert '\n' !in t by {
        TrimParts(line);
      }
      if FromAll(t, "allow") {
        FromAllIsHost(t, "allow");
      } else {
        FromAllIsHost(t, "deny");
      }
    }
  }

  lemma CommentOneLine(line: string)
    requires '\n' !in line
    ensures '\n' !in "# " + line + CommentTail
  {
  }

  lemma RequireOneLine(d: Directive)
    requires (d.AllowHost? || d.DenyHost?) ==> '\n' !in Trim(d.group)
    ensures '\n' !in RequireText(d)
  {
  }

  /** No emitted line holds a line feed, so each stays one line. */
  lemma UpgradeLineOneLine(line: string)
    requires '\n' !in line
    ensures '\n' !in UpgradeLine(line)
  {
    var d := DirectiveOf(Trim(line));
    if d.OrderLine? {
      CommentOneLine(line);
    } else if !d.Plain? {
      if d.AllowHost? || d.DenyHost? {
        TrimParts(d.group);
      }
      RequireOneLine(d);
      assert '\n' !in Indent(line);
    }
  }

  /** A line no pattern matches is copied. */
  lemma InertKept(line: string)
    requires Inert(Trim(line))
    ensures UpgradeLine(line) == line
  {
  }

  /** A commented-out `Order` line starts with '#', which no pattern does. */
  lemma CommentInert(line: string)
    ensures Inert(Trim("# " + line + CommentTail))
  {
    var r := "# " + line + CommentTail;
    assert Trim(r) == r by {
      assert r[0] == '#' && r[|r| - 1] == ')';
      TrimPadded("", r, "");
      assert "" + r + "" == r;
    }
    InertByInitial(r);
  }

  /** A `Require` line starts with 'R' once trimmed, which no pattern
      does. */
  lemma RequireInert(line: string)
    requires !DirectiveOf(Trim(line)).OrderLine? && !DirectiveOf(Trim(line)).Plain?
    ensures Inert(Trim(UpgradeLine(line)))
  {
    RequireParts(line);
    RequireStartInert(Trim(UpgradeLine(line)));
  }

  lemma RequireStartInert(x: string)
    requires StartsWith(x, "Require ")
    ensures Inert(x)
  {
    assert x[0] == "Require "[0] == 'R';
    InertByInitial(x);
  }

  /** What the upgrade emits is inert: a second pass copies it. */
  lemma UpgradeLineIdempotent(line: string)
    ensures UpgradeLine(UpgradeLine(line)) == UpgradeLine(line)
  {
    var d := DirectiveOf(Trim(line));
    if d.OrderLine? {
      CommentInert(line);
      InertKept(UpgradeLine(line));
    } else if !d.Plain? {
      RequireInert(line);
      InertKept(UpgradeLine(line));
    }
  }

  /** One output line per input line, each the upgrade of its input line. */
  lemma UpgradeTextLines(content: string)
    ensures Split(UpgradeText(content), '\n') == Map(Split(content, '\n'), UpgradeLine)
    ensures |Split(UpgradeText(content), '\n')| == |Split(content, '\n')|
  {
    var lines := Split(content, '\n');
    var out := Map(lines, UpgradeLine);
    forall i | 0 <= i < |out| ensures '\n' !in out[i] {
      UpgradeLineOneLine(lines[i]);
    }
    SplitJoin(out, '\n');
  }

  /** Upgrading the upgraded text changes nothing more. */
  lemma UpgradeTextIdempotent(content: string)
    ensures UpgradeText(UpgradeText(content)) == UpgradeText(content)
  {
    var lines := Split(content, '\n');
    var out := Map(lines, UpgradeLine);
    UpgradeTextLines(content);
    assert Map(out, UpgradeLine) == out by {
      forall i | 0 <= i < |out| ensures Map(out, UpgradeLine)[i] == out[i] {
        assert out[i] == UpgradeLine(lines[i]);
        UpgradeLineIdempotent(lines[i]);
      }
    }
  }

  /** upgradeApache22to24: one pass over the lines, appending what each
      becomes. */
  method UpgradeApache22To24(content: string) returns (out: string)
    ensures out == UpgradeText(content)
  {
    var lines := Split(content, '\n');
    var converted: seq<string> := [];
    for i := 0 to |lines|
      invariant converted == Map(lines[..i], UpgradeLine)
    {
      var line := lines[i];
      var trimmed := Trim(line);
      var emitted := line;
      if IsOrder(trimmed) {
        emitted := "# " + line + " (converted to Require below)";
        assert CommentTail == " (converted to Require below)";
      } else if FromAll(trimmed, "allow") {
        emitted := Repeat(" ", |line| - |LTrim(line)|) + "Require all granted";
      } else if FromAll(trimmed, "deny") {
        emitted := Repeat(" ", |line| - |LTrim(line)|) + "Require all denied";
      } else if FromHost(trimmed, "allow").Some? {
        var from := Trim(FromHost(trimmed, "allow").value);
        emitted := Repeat(" ", |line| - |LTrim(line)|) + ("Require host " + from);
      } else if FromHost(trimmed, "deny").Some? {
        var from := Trim(FromHost(trimmed, "deny").value);
        emitted := Repeat(" ", |line| - |LTrim(line)|) + ("Require not host " + from);
      }
      assert emitted == UpgradeLine(line);
      TakeSnoc(lines, i);
      MapSnoc(lines[..i], line, UpgradeLine);
      converted := converted + [emitted];
    }
    TakeAll(lines);
    out := Join(converted, "\n");
  }

  // ---------------------------------------------------------------------------
  // analyze

  /** The array analyze returns: the missing-file error, or the analysis.
      `parsed` is set for an Apache source only. */
  datatype Analysis =
    | Failed(error: string)
    | Analyzed(from: string, to: string, originalFile: string, originalContent: string,
               convertedContent: string, issues: seq<string>, warnings: seq<Warning>,
               parsed: Option<Parsed>)

  /** The converted text for a parsed Apache source: the generator the
      target names, the upgrade for "apache24", and "" for anything else. */
  function Generated(parsed: Parsed, content: string, to: string): string {
    if to == "nginx" then Join(Nginx.GenerateLines(parsed), "\n")
    else if to == "frankenphp" then Join(Caddy.GenerateLines(parsed), "\n")
    else if to == "apache24" then UpgradeText(content)
    else ""
  }

  /** What analyze returns for the file at `path`, whose content is `read`
      (None when the file does not exist), with `rec` answering the
      parser's preg_match calls. */
  function AnalysisOf(rec: Captures, path: string, read: Option<string>, from: string, to: string): Analysis {
    match read
    case None => Failed("Configuration file not found")
    case Some(content) =>
      if StartsWith(from, "apache") then
        var (parsed, warnings) := ParseContent(rec, content);
        Analyzed(from, to, path, content, Generated(parsed, content, to), [], warnings, Some(parsed))
      else
        Analyzed(from, to, path, content, "", [], [], None)
  }

  /** A missing file is the only failure; a non-Apache source is analyzed
      with nothing converted; an Apache source is converted for the three
      known targets whatever its version, and nothing else. */
  lemma AnalysisOutcome(rec: Captures, path: string, read: Option<string>, from: string, to: string)
    ensures AnalysisOf(rec, path, read, from, to).Failed? <==> read.None?
    ensures read.None? ==> AnalysisOf(rec, path, read, from, to) == Failed("Configuration file not found")
    ensures read.Some? ==>
      AnalysisOf(rec, path, read, from, to).originalContent == read.value &&
      AnalysisOf(rec, path, read, from, to).originalFile == path &&
      AnalysisOf(rec, path, read, from, to).issues == []
    ensures read.Some? && !StartsWith(from, "apache") ==>
      AnalysisOf(rec, path, read, from, to).convertedContent == "" &&
      AnalysisOf(rec, path, read, from, to).parsed.None? &&
      AnalysisOf(rec, path, read, from, to).warnings == []
    ensures read.Some? && StartsWith(from, "apache") ==>
      AnalysisOf(rec, path, read, from, to).parsed.Some? &&
      AnalysisOf(rec, path, read, from, to).warnings == ParseContent(rec, read.value).1
    ensures read.Some? && StartsWith(from, "apache") && to == "apache24" ==>
      AnalysisOf(rec, path, read, from, to).convertedContent == UpgradeText(read.value)
    ensures read.Some? && to != "nginx" && to != "frankenphp" && to != "apache24" ==>
      AnalysisOf(rec, path, read, from, to).convertedContent == ""
  {
  }

  /** analyze: a fresh parser reads an Apache source, and the generator the
      target names writes the converted text. */
  method Analyze(rec: Captures, path: string, read: Option<string>, from: string, to: string)
    returns (result: Analysis)
    ensures result == AnalysisOf(rec, path, read, from, to)
  {
    if read.None? {
      return Failed("Configuration file not found");
    }
    var content := read.value;
    result := Analyzed(from, to, path, content, "", [], [], None);
    if StartsWith(from, "apache") {
      var parser := new Parser();
      var parsed := parser.Parse(content, rec);
      result := result.(parsed := Some(parsed), issues := parser.GetIssues(), warnings := parser.GetWarnings());
      var text := GenerateFor(parsed, content, to);
      result := result.(convertedContent := text);
    }
  }

  /** The target dispatch of analyze. */
  method GenerateFor(parsed: Parsed, content: string, to: string) returns (text: string)
    ensures text == Generated(parsed, content, to)
  {
    text := "";
    if to == "nginx" {
      text := Nginx.Generate(parsed);
    } else if to == "frankenphp" {
      text := Caddy.Generate(parsed);
    } else if to == "apache24" {
      text := UpgradeApache22To24(content);
    }
  }
}
