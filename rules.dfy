/** The shapes the analyzers share: rules as decoded from the JSON rule
    database, the issue records they produce, the files they read, and the
    two facts every textual match relies on (where a match is, and which line
    of the file that is). */
module Rules {
  import opened Wrappers
  import opened Text
  import Ast
  import Helpers

  /** One entry of a rule list: its keys and their (string) values.  A key
      that is absent stands for one that is unset or null in the JSON. */
  type Rule = map<string, string>

  /** A decoded JSON document of the rule database: each top-level key holds
      a list of rules. */
  type Doc = map<string, seq<Rule>>

  /** `$rule[$key] ?? $default` */
  function FieldOr(rule: Rule, key: string, default: string): (r: string)
    ensures key in rule ==> r == rule[key]
    ensures key !in rule ==> r == default
  {
    if key in rule then rule[key] else default
  }

  /** `$rule[$key] ?? null` */
  function FieldOpt(rule: Rule, key: string): (r: Option<string>)
    ensures r.Some? <==> key in rule
    ensures r.Some? ==> r.value == rule[key]
  {
    if key in rule then Some(rule[key]) else None
  }

  /** `$doc[$key] ?? []` */
  function ListOr(doc: Doc, key: string): (r: seq<Rule>)
    ensures key in doc ==> r == doc[key]
    ensures key !in doc ==> r == []
  {
    if key in doc then doc[key] else []
  }

  /** The PCRE engine behind `preg_match_all($pattern, $subject, $m,
      PREG_OFFSET_CAPTURE)`: the start offsets of the successive
      non-overlapping matches, ascending (empty on no match or a bad pattern). */
  type Matcher = (string, string) -> seq<nat>

  /** The pattern the analyzers build from a rule's regex: '/' . regex . '/i'. */
  function Pattern(regex: string): (r: string)
    ensures |r| == |regex| + 3 && r[0] == '/' && r[|r| - 2..] == "/i"
  {
    "/" + regex + "/i"
  }

  /** An issue record.  `kind` is the 'type' key; `extra` holds the optional
      keys an analyzer adds (replacement, example_old, file, relative_path,
      ...) with None for a null value. */
  datatype Issue = Issue(
    kind: string,
    category: Option<string>,
    severity: Option<string>,
    title: string,
    description: string,
    line: int,
    code: string,
    snippet: map<int, string>,
    extra: map<string, Option<string>>)

  /** A file handed to an analyzer: the scanner's 'path' and optional
      'relative_path', the file's content, and what the PHP parser makes of
      it (None for a syntax error or an unreadable file). */
  datatype SourceFile = SourceFile(
    path: string,
    relativePath: Option<string>,
    content: string,
    ast: Option<seq<Ast.Node>>)

  /** `$fileInfo['relative_path'] ?? $filePath` */
  function RelativePathOf(file: SourceFile): (r: string)
    ensures file.relativePath.None? ==> r == file.path
  {
    file.relativePath.GetOr(file.path)
  }

  /** The 'file' and 'relative_path' keys analyze() adds to each issue of a file. */
  function StampFile(issue: Issue, file: SourceFile): (r: Issue)
    ensures r.extra.Keys == issue.extra.Keys + {"file", "relative_path"}
    ensures r.extra["file"] == Some(file.path) && r.extra["relative_path"] == Some(RelativePathOf(file))
    ensures r.(extra := issue.extra) == issue
  {
    issue.(extra := issue.extra["file" := Some(file.path)]["relative_path" := Some(RelativePathOf(file))])
  }

  // ---------------------------------------------------------------------------
  // Lines

  /** One line as `file(..., FILE_IGNORE_NEW_LINES)` returns it: without its
      "\n" and without the "\r" of a "\r\n" ending. */
  function StripCR(piece: string): (r: string)
    ensures |r| <= |piece|
  {
    if piece != [] && piece[|piece| - 1] == '\r' then piece[..|piece| - 1] else piece
  }

  /** `file($path, FILE_IGNORE_NEW_LINES)`: the content split at "\n", with no
      entry after a final "\n" (and none at all for an empty file); a "\r"
      before a "\n" goes with it, while a last line without "\n" is kept as
      it is. */
  function FileLines(content: string): (r: seq<string>)
    ensures |r| == CountChar(content, '\n') + (if content == [] || content[|content| - 1] == '\n' then 0 else 1)
  {
    var pieces := Split(content, '\n');
    SplitCount(content, '\n');
    SplitLastEmpty(content, '\n');
    var ended := StripEach(pieces[..|pieces| - 1]);
    var last := pieces[|pieces| - 1];
    if last == "" then ended else ended + [last]
  }

  /** StripCR on every piece. */
  function StripEach(pieces: seq<string>): (r: seq<string>)
    ensures |r| == |pieces|
    ensures forall i :: 0 <= i < |r| ==> r[i] == StripCR(pieces[i])
  {
    if pieces == [] then []
    else StripEach(pieces[..|pieces| - 1]) + [StripCR(pieces[|pieces| - 1])]
  }

  /** The last piece of a split is empty exactly when the string is empty or
      ends with the delimiter. */
  lemma {:induction false} SplitLastEmpty(s: string, d: char)
    ensures var r := Split(s, d);
      r[|r| - 1] == "" <==> (s == [] || s[|s| - 1] == d)
  {
    if s != [] {
      var rest := Split(s[1..], d);
      SplitLastEmpty(s[1..], d);
      if s[0] == d {
        assert Split(s, d) == [""] + rest;
      } else {
        assert Split(s, d) == [[s[0]] + rest[0]] + rest[1..];
      }
    }
  }

  /** `substr_count($content, "\n", 0, $offset) + 1`: the 1-based line a
      match starting at `offset` is reported on (offsets past the end count
      as the end). */
  function LineOf(content: string, offset: nat): (r: int)
    ensures 1 <= r <= CountChar(content, '\n') + 1
  {
    var end := if offset <= |content| then offset else |content|;
    CountCharAppend(content[..end], content[end..], '\n');
    assert content[..end] + content[end..] == content;
    CountChar(content[..end], '\n') + 1
  }

  /** The lines of all matches, in match order. */
  function MatchLines(content: string, offsets: seq<nat>): (r: seq<int>)
    ensures |r| == |offsets|
    ensures forall i :: 0 <= i < |r| ==> r[i] == LineOf(content, offsets[i])
  {
    if offsets == [] then []
    else MatchLines(content, offsets[..|offsets| - 1]) + [LineOf(content, offsets[|offsets| - 1])]
  }

  /** `$lines[$lineNumber - 1] ?? ''` */
  function CodeAt(lines: seq<string>, line: int): (r: string)
    ensures 1 <= line <= |lines| ==> r == lines[line - 1]
    ensures !(1 <= line <= |lines|) ==> r == ""
  {
    if 1 <= line <= |lines| then lines[line - 1] else ""
  }

  /** A match that starts inside the content lies on a line the file has, so
      the issue's `code` is that line and never the '' fallback. */
  lemma MatchLineInFile(content: string, offset: nat)
    requires offset < |content|
    ensures 1 <= LineOf(content, offset) <= |FileLines(content)|
    ensures CodeAt(FileLines(content), LineOf(content, offset)) == FileLines(content)[LineOf(content, offset) - 1]
  {
    var n := |content|;
    var init := content[..n - 1];
    CountCharAppend(init, [content[n - 1]], '\n');
    assert init + [content[n - 1]] == content;
    CountCharAppend(content[..offset], init[offset..], '\n');
    assert content[..offset] + init[offset..] == init;
  }

  lemma MatchLinesAt(content: string, offsets: seq<nat>, i: nat)
    requires i < |offsets|
    ensures MatchLines(content, offsets)[i] == LineOf(content, offsets[i])
  {
  }

  // ---------------------------------------------------------------------------
  // Issues on lines

  /** The template `t` placed on `line`: the line, its code (or '' past the
      end of the file) and the two-line snippet around it. */
  function Located(t: Issue, line: int, lines: seq<string>): (r: Issue)
    ensures r.kind == t.kind && r.line == line
  {
    t.(line := line, code := CodeAt(lines, line), snippet := Helpers.SnippetOf(lines, line, 2))
  }

  /** One issue per line of `ls`, in order, all from the template `t`. */
  function IssuesOn(t: Issue, ls: seq<int>, lines: seq<string>): (r: seq<Issue>)
    ensures |r| == |ls|
  {
    if ls == [] then []
    else IssuesOn(t, ls[..|ls| - 1], lines) + [Located(t, ls[|ls| - 1], lines)]
  }

  lemma IssuesOnSnoc(t: Issue, ls: seq<int>, l: int, lines: seq<string>)
    ensures IssuesOn(t, ls + [l], lines) == IssuesOn(t, ls, lines) + [Located(t, l, lines)]
  {
    assert (ls + [l])[..|ls|] == ls;
  }

  /** The issues of IssuesOn sit on the given lines, in order, and all have
      the template's type. */
  lemma {:induction false} IssuesOnLines(t: Issue, ls: seq<int>, lines: seq<string>)
    ensures forall i :: 0 <= i < |ls| ==> IssuesOn(t, ls, lines)[i].line == ls[i]
    ensures forall i :: 0 <= i < |ls| ==> IssuesOn(t, ls, lines)[i].kind == t.kind
  {
    if ls != [] {
      IssuesOnLines(t, ls[..|ls| - 1], lines);
    }
  }

  /** The i-th issue is the template on the i-th line. */
  lemma {:induction false} IssuesOnAt(t: Issue, ls: seq<int>, lines: seq<string>, i: nat)
    requires i < |ls|
    ensures IssuesOn(t, ls, lines)[i] == Located(t, ls[i], lines)
  {
    if i < |ls| - 1 {
      IssuesOnAt(t, ls[..|ls| - 1], lines, i);
    }
  }

  /** Every issue of IssuesOn is the template on one of the lines. */
  lemma {:induction false} IssuesOnMembers(t: Issue, ls: seq<int>, lines: seq<string>)
    ensures forall x :: x in IssuesOn(t, ls, lines) ==> x.kind == t.kind && x.line in ls
  {
    if ls != [] {
      IssuesOnMembers(t, ls[..|ls| - 1], lines);
      assert ls == ls[..|ls| - 1] + [ls[|ls| - 1]];
    }
  }

  // ---------------------------------------------------------------------------
  // Collecting issues

  /** The issues of `f` on each element of `xs`, concatenated in order: what
      a foreach that array_merges each element's issues builds. */
  function ConcatMap<T>(f: T -> seq<Issue>, xs: seq<T>): seq<Issue> {
    if xs == [] then [] else ConcatMap(f, xs[..|xs| - 1]) + f(xs[|xs| - 1])
  }

  /** One more element adds its issues at the end. */
  lemma ConcatMapSnoc<T>(f: T -> seq<Issue>, xs: seq<T>, x: T)
    ensures ConcatMap(f, xs + [x]) == ConcatMap(f, xs) + f(x)
  {
    assert (xs + [x])[..|xs|] == xs;
  }

  /** The issues of a concatenation are the concatenation of the issues. */
  lemma {:induction false} ConcatMapAppend<T>(f: T -> seq<Issue>, a: seq<T>, b: seq<T>)
    ensures ConcatMap(f, a + b) == ConcatMap(f, a) + ConcatMap(f, b)
    decreases |b|
  {
    if b == [] {
      assert a + b == a;
    } else {
      var b' := b[..|b| - 1];
      assert (a + b)[..|a + b| - 1] == a + b';
      assert (a + b)[|a + b| - 1] == b[|b| - 1];
      ConcatMapAppend(f, a, b');
    }
  }

  /** Every collected issue is an issue of some element, and every issue of
      every element is collected: nothing is dropped or invented. */
  lemma {:induction false} ConcatMapElements<T>(f: T -> seq<Issue>, xs: seq<T>)
    ensures forall y :: y in ConcatMap(f, xs) <==> exists x :: x in xs && y in f(x)
  {
    if xs != [] {
      var init := xs[..|xs| - 1];
      var last := xs[|xs| - 1];
      ConcatMapElements(f, init);
      assert xs == init + [last];
      forall y ensures y in ConcatMap(f, xs) <==> exists x :: x in xs && y in f(x) {
        if y in ConcatMap(f, xs) && y !in ConcatMap(f, init) {
          assert y in f(last);
        }
        if y in f(last) {
          assert y in ConcatMap(f, xs);
        }
        if exists x :: x in init && y in f(x) {
          assert y in ConcatMap(f, init);
        }
      }
    }
  }

  /** The k-th element's issues sit, all of them, between those of the
      elements before and after it. */
  lemma ConcatMapSplit<T>(f: T -> seq<Issue>, xs: seq<T>, k: nat)
    requires k < |xs|
    ensures ConcatMap(f, xs) == ConcatMap(f, xs[..k]) + f(xs[k]) + ConcatMap(f, xs[k + 1..])
  {
    var before, after := xs[..k], xs[k + 1..];
    assert xs == before + [xs[k]] + after;
    ConcatMapMiddle(f, before, xs[k], after);
  }

  /** An element between two runs adds its own issues between theirs. */
  lemma ConcatMapMiddle<T>(f: T -> seq<Issue>, before: seq<T>, x: T, after: seq<T>)
    ensures ConcatMap(f, before + [x] + after) == ConcatMap(f, before) + f(x) + ConcatMap(f, after)
  {
    ConcatMapAppend(f, before + [x], after);
    ConcatMapSnoc(f, before, x);
  }
}
