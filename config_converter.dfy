/** The server configuration converter (src/ServerConfig/ConfigConverter.php):
    an Apache configuration becomes an Nginx or FrankenPHP one through the
    parser and the generators, or is upgraded from Apache 2.2 to 2.4 by a
    line rewriter that folds an `Order` line and the "from all" line after
    it into one `Require` line. */
module ConfigConverter {
  import opened Wrappers
  import opened Text
  import opened Seqs
  import opened ApacheParser
  import opened AccessPatterns
  import Nginx = NginxGenerator
  import Caddy = FrankenPHPGenerator

  const Granted := "Require all granted"
  const Denied := "Require all denied"

  lemma RequireOneLine()
    ensures '\n' !in Granted && '\n' !in Denied
  {
  }

  // ---------------------------------------------------------------------------
  // upgradeApache22to24, the look-ahead variant

  /** The look-ahead past the last line reads "", which is no "from all"
      line. */
  lemma NothingFromAll()
    ensures !FromAll("", "allow") && !FromAll("", "deny")
  {
  }

  /** A line with the answers of the patterns the upgrade tests its trimmed
      text against. */
  datatype Line = Line(text: string, order: bool, allowAll: bool, denyAll: bool)

  function Examine(line: string): (l: Line)
    ensures l.text == line
  {
    var t := Trim(line);
    Line(line, IsOrder(t), FromAll(t, "allow"), FromAll(t, "deny"))
  }

  /** The lines of a configuration, examined one by one. */
  function Examined(lines: seq<string>): (ls: seq<Line>)
    ensures |ls| == |lines|
  {
    if lines == [] then [] else [Examine(lines[0])] + Examined(lines[1..])
  }

  lemma {:induction false} ExaminedAt(lines: seq<string>, k: nat)
    requires k < |lines|
    ensures Examined(lines)[k] == Examine(lines[k])
    decreases k
  {
    var ls := Examined(lines);
    assert ls == [Examine(lines[0])] + Examined(lines[1..]);
    if k > 0 {
      ExaminedAt(lines[1..], k - 1);
      assert lines[1..][k - 1] == lines[k];
    }
  }

  lemma ExaminedIsMap(lines: seq<string>)
    ensures Examined(lines) == Map(lines, Examine)
  {
    forall k | 0 <= k < |lines| ensures Examined(lines)[k] == Map(lines, Examine)[k] {
      ExaminedAt(lines, k);
    }
  }

  function TextOf(l: Line): string {
    l.text
  }

  /** A line that is not part of an `Order` pair: a "from all" directive
      has its trimmed text replaced (str_replace), anything else is kept. */
  function Single(l: Line): string {
    if l.allowAll then ReplaceAll(l.text, Trim(l.text), Granted)
    else if l.denyAll then ReplaceAll(l.text, Trim(l.text), Denied)
    else l.text
  }

  /** The converted lines: an `Order` line whose next line is "from all"
      gives one indented `Require` line and the next line is skipped;
      every other line goes through Single.  (Past the last line the
      look-ahead sees "", which no pattern matches.) */
  function Upgraded(ls: seq<Line>): (r: seq<string>)
    ensures |r| <= |ls|
    decreases |ls|
  {
    if ls == [] then []
    else if ls[0].order && |ls| > 1 && ls[1].allowAll then ["    " + Granted] + Upgraded(ls[2..])
    else if ls[0].order && |ls| > 1 && ls[1].denyAll then ["    " + Denied] + Upgraded(ls[2..])
    else [Single(ls[0])] + Upgraded(ls[1..])
  }

  /** Upgraded read from position `i`: one step of the pass. */
  lemma UpgradedAt(ls: seq<Line>, i: nat)
    requires i < |ls|
    ensures ls[i].order && i + 1 < |ls| && ls[i + 1].allowAll ==>
      Upgraded(ls[i..]) == ["    " + Granted] + Upgraded(ls[i + 2..])
    ensures ls[i].order && i + 1 < |ls| && !ls[i + 1].allowAll && ls[i + 1].denyAll ==>
      Upgraded(ls[i..]) == ["    " + Denied] + Upgraded(ls[i + 2..])
    ensures !(ls[i].order && i + 1 < |ls| && (ls[i + 1].allowAll || ls[i + 1].denyAll)) ==>
      Upgraded(ls[i..]) == [Single(ls[i])] + Upgraded(ls[i + 1..])
  {
    assert ls[i..][0] == ls[i] && ls[i..][1..] == ls[i + 1..];
    if i + 1 < |ls| {
      assert ls[i..][1] == ls[i + 1] && ls[i..][2..] == ls[i + 2..];
    }
  }

  /** Emitting one more line. */
  lemma Appended(done: seq<string>, x: string, rest: seq<string>)
    ensures done + ([x] + rest) == (done + [x]) + rest
  {
  }

  /** The collapsed lines, as the source spells them. */
  lemma CollapsedLiterals()
    ensures "    " + Granted == "    Require all granted" && "    " + Denied == "    Require all denied"
  {
  }

  /** One step of the pass, in the terms the loop tests: the line the
      upgrade emits for line `i` and where it resumes. */
  lemma UpgradeStep(lines: seq<string>, i: nat)
    requires i < |lines|
    ensures var t := Trim(lines[i]);
      var next := if i + 1 < |lines| then Trim(lines[i + 1]) else "";
      if IsOrder(t) && FromAll(next, "allow") then
        i + 1 < |lines| &&
        Upgraded(Examined(lines)[i..]) == ["    Require all granted"] + Upgraded(Examined(lines)[i + 2..])
      else if IsOrder(t) && FromAll(next, "deny") then
        i + 1 < |lines| &&
        Upgraded(Examined(lines)[i..]) == ["    Require all denied"] + Upgraded(Examined(lines)[i + 2..])
      else if FromAll(t, "allow") then
        Upgraded(Examined(lines)[i..]) ==
          [ReplaceAll(lines[i], t, "Require all granted")] + Upgraded(Examined(lines)[i + 1..])
      else if FromAll(t, "deny") then
        Upgraded(Examined(lines)[i..]) ==
          [ReplaceAll(lines[i], t, "Require all denied")] + Upgraded(Examined(lines)[i + 1..])
      else
        Upgraded(Examined(lines)[i..]) == [lines[i]] + Upgraded(Examined(lines)[i + 1..])
  {
    UpgradedAt(Examined(lines), i);
    CollapsedLiterals();
    NothingFromAll();
    ExaminedAt(lines, i);
    if i + 1 < |lines| {
      ExaminedAt(lines, i + 1);
    }
  }

  /** The converted text. */
  function UpgradeText(content: string): string {
    Join(Upgraded(Examined(Split(content, '\n'))), "\n")
  }

  /** A standalone "from all" line keeps the whitespace around it. */
  lemma StandaloneKeepsWhitespace(line: string)
    ensures Examine(line).allowAll ==> Single(Examine(line)) == Leading(line) + Granted + Trailing(line)
    ensures !Examine(line).allowAll && Examine(line).denyAll ==>
      Single(Examine(line)) == Leading(line) + Denied + Trailing(line)
  {
    var l := Examine(line);
    if l.allowAll || l.denyAll {
      if l.allowAll {
        FromAllNonEmpty(Trim(line), "allow");
        ReplaceTrimmed(line, Granted);
      } else {
        FromAllNonEmpty(Trim(line), "deny");
        ReplaceTrimmed(line, Denied);
      }
    }
  }

  /** An `Order` line followed by "Allow from all" or "Deny from all"
      becomes a single `Require` line. */
  lemma OrderPairCollapses(order: string, access: string, rest: seq<Line>)
    requires Examine(order).order
    ensures Examine(access).allowAll ==>
      Upgraded([Examine(order), Examine(access)] + rest) == ["    " + Granted] + Upgraded(rest)
    ensures Examine(access).denyAll && !Examine(access).allowAll ==>
      Upgraded([Examine(order), Examine(access)] + rest) == ["    " + Denied] + Upgraded(rest)
  {
    assert ([Examine(order), Examine(access)] + rest)[2..] == rest;
  }

  /** A `Require` line, indented or not, is no Apache 2.2 directive. */
  lemma RequireInert(lead: string, x: string, trail: string)
    requires x == Granted || x == Denied
    requires forall i :: 0 <= i < |lead| ==> IsTrimChar(lead[i])
    requires forall i :: 0 <= i < |trail| ==> IsTrimChar(trail[i])
    ensures !Examine(lead + x + trail).allowAll && !Examine(lead + x + trail).denyAll
  {
    TrimPadded(lead, x, trail);
    InertByInitial(x);
  }

  /** A converted line is never a "from all" directive. */
  lemma SingleNotFromAll(line: string)
    ensures !Examine(Single(Examine(line))).allowAll && !Examine(Single(Examine(line))).denyAll
  {
    var l := Examine(line);
    if l.allowAll || l.denyAll {
      assert Trim(line) != [];
      StandaloneKeepsWhitespace(line);
      RequireInert(Leading(line), if l.allowAll then Granted else Denied, Trailing(line));
    }
  }

  /** The collapsed `Require` lines are no Apache 2.2 directives either. */
  lemma CollapsedNotFromAll()
    ensures !Examine("    " + Granted).allowAll && !Examine("    " + Granted).denyAll
    ensures !Examine("    " + Denied).allowAll && !Examine("    " + Denied).denyAll
  {
    RequireInert("    ", Granted, "");
    RequireInert("    ", Denied, "");
    assert "    " + Granted + "" == "    " + Granted;
    assert "    " + Denied + "" == "    " + Denied;
  }

  /** No line of `out` is a "from all" directive, as `exam` classifies
      lines. */
  predicate NoFromAll(exam: string -> Line, out: seq<string>) {
    forall i :: 0 <= i < |out| ==> !exam(out[i]).allowAll && !exam(out[i]).denyAll
  }

  /** The upgrade's induction, for any classifier that finds no "from all"
      directive in the lines the upgrade emits. */
  lemma {:induction false} NoFromAllBy(lines: seq<string>, exam: string -> Line)
    requires forall line :: NoFromAll(exam, [Single(exam(line))])
    requires NoFromAll(exam, ["    " + Granted, "    " + Denied])
    ensures NoFromAll(exam, Upgraded(Map(lines, exam)))
    decreases |lines|
  {
    var ls := Map(lines, exam);
    if lines != [] {
      var r := Upgraded(ls);
      var k := if ls[0].order && |ls| > 1 && (ls[1].allowAll || ls[1].denyAll) then 2 else 1;
      MapDrop(lines, exam, k);
      NoFromAllBy(lines[k..], exam);
      assert r == [r[0]] + Upgraded(ls[k..]);
      if k == 2 {
        assert r[0] == (["    " + Granted, "    " + Denied])[0] || r[0] == (["    " + Granted, "    " + Denied])[1];
      } else {
        assert r[0] == [Single(exam(lines[0]))][0];
      }
    }
  }

  /** Examine finds no "from all" directive in the lines the upgrade
      emits. */
  lemma ExamineFindsNone()
    ensures forall line :: NoFromAll(Examine, [Single(Examine(line))])
    ensures NoFromAll(Examine, ["    " + Granted, "    " + Denied])
  {
    forall line ensures NoFromAll(Examine, [Single(Examine(line))]) {
      SingleNotFromAll(line);
    }
    CollapsedNotFromAll();
  }

  /** No "Allow from all" or "Deny from all" survives the upgrade. */
  lemma NoFromAllSurvives(lines: seq<string>)
    ensures NoFromAll(Examine, Upgraded(Examined(lines)))
  {
    ExamineFindsNone();
    NoFromAllBy(lines, Examine);
    ExaminedIsMap(lines);
  }

  /** Lines without a "from all" directive come through unchanged. */
  lemma {:induction false} UpgradeFixes(ls: seq<Line>)
    requires forall i :: 0 <= i < |ls| ==> !ls[i].allowAll && !ls[i].denyAll
    ensures Upgraded(ls) == Map(ls, TextOf)
    decreases |ls|
  {
    if ls != [] {
      assert !ls[0].allowAll && !ls[0].denyAll;
      assert |ls| > 1 ==> !ls[1].allowAll && !ls[1].denyAll;
      UpgradeFixes(ls[1..]);
      MapDrop(ls, TextOf, 1);
      assert Map(ls, TextOf) == [TextOf(ls[0])] + Map(ls, TextOf)[1..];
    }
  }

  /** Idempotence, for any classifier that keeps each line's text and
      finds no "from all" directive in the lines the upgrade emits. */
  lemma IdempotentBy(lines: seq<string>, exam: string -> Line)
    requires forall line :: exam(line).text == line
    requires forall line :: NoFromAll(exam, [Single(exam(line))])
    requires NoFromAll(exam, ["    " + Granted, "    " + Denied])
    ensures Upgraded(Map(Upgraded(Map(lines, exam)), exam)) == Upgraded(Map(lines, exam))
  {
    var out := Upgraded(Map(lines, exam));
    NoFromAllBy(lines, exam);
    var ls := Map(out, exam);
    UpgradeFixes(ls);
    assert Map(ls, TextOf) == out by {
      forall i | 0 <= i < |out| ensures Map(ls, TextOf)[i] == out[i] {
        assert ls[i] == exam(out[i]);
      }
    }
  }

  /** Upgrading an upgraded configuration changes nothing more. */
  lemma UpgradeIdempotent(lines: seq<string>)
    ensures Upgraded(Examined(Upgraded(Examined(lines)))) == Upgraded(Examined(lines))
  {
    ExamineFindsNone();
    IdempotentBy(lines, Examine);
    ExaminedIsMap(lines);
    ExaminedIsMap(Upgraded(Examined(lines)));
  }

  /** A converted line holds a line feed only if its source line did. */
  lemma SingleNoNewline(line: string)
    requires '\n' !in line
    ensures '\n' !in Single(Examine(line))
  {
    var l := Examine(line);
    if l.allowAll || l.denyAll {
      assert Trim(line) != [];
      StandaloneKeepsWhitespace(line);
      TrimParts(line);
      RequireOneLine();
      assert '\n' !in Leading(line) && '\n' !in Trailing(line);
    }
  }

  /** No emitted line holds a line feed. */
  predicate OneLineEach(out: seq<string>) {
    forall i :: 0 <= i < |out| ==> '\n' !in out[i]
  }

  /** The upgrade's induction, for any classifier whose standalone lines
      keep to one line. */
  lemma {:induction false} OneLineBy(lines: seq<string>, exam: string -> Line)
    requires forall line :: '\n' !in line ==> OneLineEach([Single(exam(line))])
    requires OneLineEach(lines)
    ensures OneLineEach(Upgraded(Map(lines, exam)))
    decreases |lines|
  {
    var ls := Map(lines, exam);
    if lines != [] {
      var r := Upgraded(ls);
      var k := if ls[0].order && |ls| > 1 && (ls[1].allowAll || ls[1].denyAll) then 2 else 1;
      MapDrop(lines, exam, k);
      assert OneLineEach(lines[k..]) by {
        forall i | 0 <= i < |lines[k..]| ensures '\n' !in lines[k..][i] {
          assert lines[k..][i] == lines[i + k];
        }
      }
      OneLineBy(lines[k..], exam);
      assert r == [r[0]] + Upgraded(ls[k..]);
      if k == 2 {
        RequireOneLine();
        assert '\n' !in "    ";
        assert r[0] == "    " + Granted || r[0] == "    " + Denied;
      } else {
        assert '\n' !in lines[0];
        assert r[0] == [Single(exam(lines[0]))][0];
      }
    }
  }

  /** The upgrade emits no line holding a line feed when it reads none. */
  lemma UpgradedNoNewline(lines: seq<string>)
    requires OneLineEach(lines)
    ensures OneLineEach(Upgraded(Examined(lines)))
  {
    forall line | '\n' !in line ensures OneLineEach([Single(Examine(line))]) {
      SingleNoNewline(line);
    }
    OneLineBy(lines, Examine);
    ExaminedIsMap(lines);
  }

  /** The upgrade never adds a line, and upgrading the upgraded text gives
      it back. */
  lemma UpgradeTextProperties(content: string)
    ensures |Split(UpgradeText(content), '\n')| <= |Split(content, '\n')|
    ensures UpgradeText(UpgradeText(content)) == UpgradeText(content)
  {
    var lines := Split(content, '\n');
    UpgradedNoNewline(lines);
    SplitJoin(Upgraded(Examined(lines)), '\n');
    UpgradeIdempotent(lines);
  }

  // ---------------------------------------------------------------------------
  // convert

  /** The array convert returns. */
  datatype Conversion = Conversion(success: bool, from: string, to: string, converted: string,
                                   warnings: seq<Warning>, errors: seq<string>)

  /** What convert returns for `content`, with `rec` answering the parser's
      preg_match calls. */
  function Converted(rec: Captures, content: string, from: string, to: string): Conversion {
    if StartsWith(from, "apache") then
      var (parsed, warnings) := ParseContent(rec, content);
      Reconverted(parsed, warnings, content, from, to)
    else
      Conversion(false, from, to, "", [], ["Unsupported source server: " + from])
  }

  /** The conversion of an Apache source, once parsed. */
  function Reconverted(parsed: Parsed, warnings: seq<Warning>, content: string, from: string, to: string): Conversion {
    if to == "nginx" then
      Conversion(true, from, to, Join(Nginx.GenerateLines(parsed), "\n"), warnings, [])
    else if to == "frankenphp" then
      Conversion(true, from, to, Join(Caddy.GenerateLines(parsed), "\n"), warnings, [])
    else if to == "apache24" && from == "apache22" then
      Conversion(true, from, to, UpgradeText(content), warnings, [])
    else
      Conversion(false, from, to, "", warnings, ["Unsupported conversion: " + from + " -> " + to])
  }

  /** The three supported conversions succeed; every other pair fails with
      one error naming it, and converts nothing. */
  lemma ConversionOutcome(rec: Captures, content: string, from: string, to: string)
    ensures Converted(rec, content, from, to).success <==>
      StartsWith(from, "apache") && (to == "nginx" || to == "frankenphp" || (to == "apache24" && from == "apache22"))
    ensures Converted(rec, content, from, to).from == from && Converted(rec, content, from, to).to == to
    ensures Converted(rec, content, from, to).success <==> Converted(rec, content, from, to).errors == []
    ensures !StartsWith(from, "apache") ==>
      Converted(rec, content, from, to).errors == ["Unsupported source server: " + from]
    ensures StartsWith(from, "apache") && !Converted(rec, content, from, to).success ==>
      Converted(rec, content, from, to).errors == ["Unsupported conversion: " + from + " -> " + to]
    ensures !Converted(rec, content, from, to).success ==> Converted(rec, content, from, to).converted == ""
  {
  }

  /** The warnings are the parser's for an Apache source, and none
      otherwise. */
  lemma ConversionWarnings(rec: Captures, content: string, from: string, to: string)
    ensures StartsWith(from, "apache") ==>
      Converted(rec, content, from, to).warnings == Pick(ParseContent(rec, content).0.accessControl, AccessWarning)
    ensures !StartsWith(from, "apache") ==> Converted(rec, content, from, to).warnings == []
  {
    WarningsFollowAccess(rec, content);
  }

  // ---------------------------------------------------------------------------
  // The converter object

  class Converter {
    const apacheParser: Parser

    constructor ()
      ensures fresh(apacheParser)
      ensures apacheParser.issues == [] && apacheParser.warnings == []
    {
      apacheParser := new Parser();
    }

    /** convert: the parser keeps the warnings of the last Apache content
        it read. */
    method Convert(content: string, from: string, to: string, rec: Captures) returns (result: Conversion)
      modifies apacheParser
      ensures result == Converted(rec, content, from, to)
      ensures StartsWith(from, "apache") ==> apacheParser.warnings == ParseContent(rec, content).1
      ensures !StartsWith(from, "apache") ==> unchanged(apacheParser)
    {
      if StartsWith(from, "apache") {
        var parsed := apacheParser.Parse(content, rec);
        var warnings := apacheParser.GetWarnings();
        result := ConvertParsed(parsed, warnings, content, from, to);
      } else {
        result := Conversion(false, from, to, "", [], ["Unsupported source server: " + from]);
      }
    }

    /** convert once an Apache source is parsed: the target picks the
        generator, and an unknown pair is an error. */
    method ConvertParsed(parsed: Parsed, warnings: seq<Warning>, content: string, from: string, to: string)
      returns (result: Conversion)
      ensures result == Reconverted(parsed, warnings, content, from, to)
    {
      result := Conversion(false, from, to, "", warnings, []);
      if to == "nginx" {
        var text := Nginx.Generate(parsed);
        result := result.(converted := text, success := true);
      } else if to == "frankenphp" {
        var text := Caddy.Generate(parsed);
        result := result.(converted := text, success := true);
      } else if to == "apache24" && from == "apache22" {
        var text := UpgradeApache22To24(content);
        result := result.(converted := text, success := true);
      } else {
        result := result.(errors := result.errors + ["Unsupported conversion: " + from + " -> " + to]);
      }
    }

    /** The body of upgradeApache22to24's loop for line `i`: the line it
        emits, and whether the `Order` line consumed the next one. */
    method UpgradeLine(lines: seq<string>, i: nat) returns (emitted: string, skipNext: bool)
      requires i < |lines|
      ensures skipNext ==> i + 1 < |lines|
      ensures Upgraded(Examined(lines)[i..]) ==
        [emitted] + Upgraded(Examined(lines)[if skipNext then i + 2 else i + 1..])
    {
      UpgradeStep(lines, i);
      var line := lines[i];
      var trimmed := Trim(line);
      emitted, skipNext := line, false;
      if IsOrder(trimmed) {
        var nextLine := if i + 1 < |lines| then Trim(lines[i + 1]) else "";
        if FromAll(nextLine, "allow") {
          return "    Require all granted", true;
        } else if FromAll(nextLine, "deny") {
          return "    Require all denied", true;
        }
      }
      if FromAll(trimmed, "allow") {
        emitted := ReplaceAll(line, trimmed, "Require all granted");
      } else if FromAll(trimmed, "deny") {
        emitted := ReplaceAll(line, trimmed, "Require all denied");
      }
    }

    /** upgradeApache22to24: one pass over the lines with a flag that skips
        the line an `Order` line has consumed. */
    method UpgradeApache22To24(content: string) returns (out: string)
      ensures out == UpgradeText(content)
    {
      var lines := Split(content, '\n');
      ghost var ls := Examined(lines);
      var converted: seq<string> := [];
      var skipNext := false;
      for i := 0 to |lines|
        invariant skipNext ==> i < |lines|
        invariant Upgraded(ls) == converted + Upgraded(ls[if skipNext then i + 1 else i..])
      {
        if skipNext {
          skipNext := false;
          continue;
        }
        var emitted;
        emitted, skipNext := UpgradeLine(lines, i);
        Appended(converted, emitted, Upgraded(ls[if skipNext then i + 2 else i + 1..]));
        converted := converted + [emitted];
      }
      assert converted == Upgraded(ls) by {
        assert ls[|lines|..] == [];
      }
      out := Join(converted, "\n");
    }
  }
}
