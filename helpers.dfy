/** The string and snippet helpers of src/Utils/Helpers.php. */
module Helpers {
  import opened Wrappers
  import opened Text

  // ---------------------------------------------------------------------------
  // extractCodeSnippet

  /** The lines around line `n` (1-based), keyed by line number: the keys run
      from max(1, n - c) to min(count, n + c). */
  function SnippetOf(lines: seq<string>, n: int, c: int): map<int, string> {
    SnippetRange(lines, SnippetLow(n, c), SnippetHigh(lines, n, c))
  }

  function SnippetLow(n: int, c: int): (lo: int)
    ensures lo >= 1
  {
    if n - c - 1 > 0 then n - c else 1
  }

  function SnippetHigh(lines: seq<string>, n: int, c: int): (hi: int)
    ensures hi <= |lines|
  {
    if |lines| - 1 < n + c - 1 then |lines| else n + c
  }

  /** Lines lo..hi keyed by their 1-based numbers. */
  function SnippetRange(lines: seq<string>, lo: int, hi: int): map<int, string>
    requires 1 <= lo && hi <= |lines|
    decreases hi - lo
  {
    if hi < lo then map[] else SnippetRange(lines, lo, hi - 1)[hi := lines[hi - 1]]
  }

  /** The keys of SnippetRange are exactly lo..hi, each holding its line. */
  lemma {:induction false} SnippetRangeKeys(lines: seq<string>, lo: int, hi: int)
    requires 1 <= lo && hi <= |lines|
    ensures var m := SnippetRange(lines, lo, hi);
      (forall k :: k in m <==> lo <= k <= hi) &&
      (forall k :: k in m ==> m[k] == lines[k - 1]) &&
      |m| == if hi >= lo then hi - lo + 1 else 0
    decreases hi - lo
  {
    if hi >= lo {
      SnippetRangeKeys(lines, lo, hi - 1);
      assert hi !in SnippetRange(lines, lo, hi - 1);
    }
  }

  /** extractCodeSnippet: a for loop from max(0, n-c-1) to min(count-1, n+c-1)
      storing line i at key i + 1. */
  method ExtractCodeSnippet(lines: seq<string>, n: int, c: int) returns (snippet: map<int, string>)
    ensures snippet == SnippetOf(lines, n, c)
    ensures forall k :: k in snippet <==> SnippetLow(n, c) <= k <= SnippetHigh(lines, n, c)
    ensures forall k :: k in snippet ==> 1 <= k <= |lines| && snippet[k] == lines[k - 1]
    ensures c >= 0 ==> |snippet| <= 2 * c + 1
    ensures lines == [] ==> snippet == map[]
  {
    var start := if n - c - 1 > 0 then n - c - 1 else 0;
    var end := if |lines| - 1 < n + c - 1 then |lines| - 1 else n + c - 1;
    snippet := map[];
    var i := start;
    while i <= end
      invariant start <= i
      invariant start <= end + 1 ==> i <= end + 1 && snippet == SnippetRange(lines, start + 1, i)
      invariant start > end ==> i == start && snippet == map[]
      decreases end + 1 - i
    {
      assert SnippetRange(lines, start + 1, i + 1) == SnippetRange(lines, start + 1, i)[i + 1 := lines[i]];
      snippet := snippet[i + 1 := lines[i]];
      i := i + 1;
    }
    assert start + 1 == SnippetLow(n, c);
    assert end + 1 == SnippetHigh(lines, n, c);
    SnippetRangeKeys(lines, SnippetLow(n, c), SnippetHigh(lines, n, c));
  }

  // ---------------------------------------------------------------------------
  // truncate, pluralize, severity lookups

  /** truncate(text, length, suffix) */
  function Truncate(text: string, length: int, suffix: string): (r: string)
    ensures |text| <= length ==> r == text
    ensures |text| > length ==>
      |suffix| <= |r| <= |text| + |suffix| &&
      r[|r| - |suffix|..] == suffix && r[..|r| - |suffix|] == text[..|r| - |suffix|]
    ensures |text| > length && length >= |suffix| ==> |r| == length
  {
    if |text| <= length then text
    else Prefix(text, length - |suffix|) + suffix
  }

  /** pluralize(count, singular, plural = null) */
  function Pluralize(count: int, singular: string, plural: Option<string>): (r: string)
    ensures count == 1 ==> r == singular
    ensures count != 1 && plural.None? ==> r == singular + "s"
    ensures count != 1 && plural.Some? ==> r == plural.value
  {
    var p := if plural.None? then singular + "s" else plural.value;
    if count == 1 then singular else p
  }

  const SeverityColors: map<string, string> := map[
    "critical" := "#dc3545", "high" := "#fd7e14", "medium" := "#ffc107",
    "low" := "#28a745", "info" := "#17a2b8"]

  const SeverityLabels: map<string, string> := map[
    "critical" := "Critical", "high" := "High", "medium" := "Medium",
    "low" := "Low", "info" := "Info"]

  const KnownSeverities: set<string> := {"critical", "high", "medium", "low", "info"}

  /** getSeverityColor */
  function GetSeverityColor(severity: string): (r: string)
    ensures severity !in KnownSeverities <==> r == "#6c757d"
  {
    if severity in SeverityColors then SeverityColors[severity] else "#6c757d"
  }

  /** getSeverityLabel */
  function GetSeverityLabel(severity: string): (r: string)
    ensures severity !in KnownSeverities <==> r == "Unknown"
    ensures severity in KnownSeverities ==> |r| > 0 && r[0] == Upper(severity[0]) && r[1..] == severity[1..]
  {
    if severity in SeverityLabels then SeverityLabels[severity] else "Unknown"
  }

  // ---------------------------------------------------------------------------
  // sanitizePath

  /** preg_replace('#/+#', '/', s): every run of slashes becomes one slash. */
  function CollapseSlashes(s: string): (r: string)
    ensures forall i :: 0 <= i < |r| - 1 ==> !(r[i] == '/' && r[i + 1] == '/')
    ensures s == [] <==> r == []
    ensures r != [] ==> r[0] == s[0]
    ensures '/' in r <==> '/' in s
  {
    if s == [] then []
    else if |s| >= 2 && s[0] == '/' && s[1] == '/' then CollapseSlashes(s[1..])
    else [s[0]] + CollapseSlashes(s[1..])
  }

  lemma {:induction false} CollapseKeepsSingleSlashes(s: string)
    requires forall i :: 0 <= i < |s| - 1 ==> !(s[i] == '/' && s[i + 1] == '/')
    ensures CollapseSlashes(s) == s
  {
    if s != [] {
      CollapseKeepsSingleSlashes(s[1..]);
      assert [s[0]] + s[1..] == s;
    }
  }

  /** sanitizePath: removes "../" and "..\" sequences, collapses slash runs and
      strips trailing slashes. */
  function SanitizePath(path: string): (r: string)
    ensures forall i :: 0 <= i < |r| - 1 ==> !(r[i] == '/' && r[i + 1] == '/')
    ensures r == [] || r[|r| - 1] != '/'
  {
    var p := ReplaceAll(ReplaceAll(path, "../", ""), "..\\", "");
    var q := CollapseSlashes(p);
    RTrimChar(q, '/')
  }

  /** "../" occurs nowhere in s. */
  predicate NoParentStep(s: string) {
    |s| < 3 || (s[..3] != "../" && NoParentStep(s[1..]))
  }

  /** The "../" removal is a single left-to-right pass, so removing one
      occurrence can join the text around it into a new "../". */
  lemma SanitizePathLeavesTraversal()
    ensures SanitizePath("..././etc") == "../etc"
    ensures !NoParentStep(SanitizePath("..././etc"))
  {
    var t := "../etc";
    FirstPassLeavesStep();
    BackslashPassKeeps();
    CollapseKeepsSingleSlashes(t);
    assert t[|t| - 1] != '/';
    assert RTrimChar(t, '/') == t;
    assert SanitizePath("..././etc") == t;
    assert t[..3] == "../";
  }

  lemma FirstPassLeavesStep()
    ensures ReplaceAll("..././etc", "../", "") == "../etc"
  {
    FirstPassStep1();
    FirstPassStep2();
    FirstPassStep3();
  }

  lemma FirstPassStep1()
    ensures ReplaceAll("..././etc", "../", "") == "." + ReplaceAll(".././etc", "../", "")
  {
    var s := "..././etc";
    assert s[..3] == "..." && s[1..] == ".././etc";
    ReplaceAllCopyHead(s, "../", "");
  }

  lemma FirstPassStep2()
    ensures ReplaceAll(".././etc", "../", "") == ReplaceAll("./etc", "../", "")
  {
    var t := ".././etc";
    assert t[..3] == "../" && t[3..] == "./etc";
    ReplaceAllDropHead(t, "../", "");
  }

  lemma FirstPassStep3()
    ensures ReplaceAll("./etc", "../", "") == "./etc"
  {
    var u := "./etc";
    assert u[..3] == "./e" && u[1..] == "/etc";
    ReplaceAllCopyHead(u, "../", "");
    ReplaceAllAbsent("/etc", "../", "");
  }

  /** A subject that does not start with the needle keeps its first character. */
  lemma ReplaceAllCopyHead(s: string, needle: string, repl: string)
    requires needle != [] && s != [] && !StartsWith(s, needle)
    ensures ReplaceAll(s, needle, repl) == [s[0]] + ReplaceAll(s[1..], needle, repl)
  {
  }

  /** A subject that starts with the needle has it replaced. */
  lemma ReplaceAllDropHead(s: string, needle: string, repl: string)
    requires needle != [] && s != [] && StartsWith(s, needle)
    ensures ReplaceAll(s, needle, repl) == repl + ReplaceAll(s[|needle|..], needle, repl)
  {
  }

  lemma BackslashPassKeeps()
    ensures ReplaceAll("../etc", "..\\", "") == "../etc"
  {
    var t := "../etc";
    assert !StartsWith(t, "..\\") by { assert t[..3] == "../"; }
    assert t[1..] == "./etc";
    assert !StartsWith(t[1..], "..\\") by { assert t[1..][..3] == "./e"; }
    assert t[1..][1..] == "/etc";
    ReplaceAllAbsent("/etc", "..\\", "");
  }

  /** Removes "../" until none is left. */
  function RemoveParentSteps(s: string): (r: string)
    ensures NoParentStep(r)
    ensures |r| <= |s|
    decreases |s|
  {
    if NoParentStep(s) then s
    else
      ReplaceAllShrinks(s);
      RemoveParentSteps(ReplaceAll(s, "../", ""))
  }

  lemma {:induction false} ReplaceAllShrinks(s: string)
    requires !NoParentStep(s)
    ensures |ReplaceAll(s, "../", "")| < |s|
  {
    if StartsWith(s, "../") {
      ReplaceAllNoLonger(s[3..], "../", "");
    } else {
      ReplaceAllShrinks(s[1..]);
    }
  }

  lemma {:induction false} ReplaceAllNoLonger(s: string, needle: string, repl: string)
    requires |repl| <= |needle|
    ensures |ReplaceAll(s, needle, repl)| <= |s|
  {
    if needle != [] && s != [] {
      if StartsWith(s, needle) {
        ReplaceAllNoLonger(s[|needle|..], needle, repl);
      } else {
        ReplaceAllNoLonger(s[1..], needle, repl);
      }
    }
  }

  /** sanitizePath as intended: the result holds no "../" step. */
  function SanitizePathFixed(path: string): (r: string)
    ensures NoParentStep(r)
    ensures forall i :: 0 <= i < |r| - 1 ==> !(r[i] == '/' && r[i + 1] == '/')
    ensures r == [] || r[|r| - 1] != '/'
  {
    var p := RemoveParentSteps(ReplaceAll(path, "..\\", ""));
    var q := CollapseSlashes(p);
    CollapseKeepsNoParentStep(p);
    var r := RTrimChar(q, '/');
    NoParentStepPrefix(q, |r|);
    r
  }

  lemma {:induction false} NoParentStepPrefix(s: string, n: nat)
    requires NoParentStep(s) && n <= |s|
    ensures NoParentStep(s[..n])
  {
    if n >= 3 {
      assert s[..n][..3] == s[..3];
      assert s[..n][1..] == s[1..][..n - 1];
      NoParentStepPrefix(s[1..], n - 1);
    }
  }

  lemma {:induction false} CollapseKeepsNoParentStep(s: string)
    requires NoParentStep(s)
    ensures NoParentStep(CollapseSlashes(s))
  {
    if s != [] {
      var t := s[1..];
      assert NoParentStep(t);
      CollapseKeepsNoParentStep(t);
      if !(|s| >= 2 && s[0] == '/' && s[1] == '/') {
        var r := CollapseSlashes(s);
        var rest := CollapseSlashes(t);
        assert r == [s[0]] + rest;
        assert r[1..] == rest;
        if |r| >= 3 && s[0] == '.' && t[0] == '.' {
          assert |t| >= 2;
          assert rest == [t[0]] + CollapseSlashes(t[1..]);
          assert rest[1] == t[1];
          assert s[..3] == [s[0], t[0], t[1]];
          assert r[..3] != "../";
        }
      }
    }
  }

  // ---------------------------------------------------------------------------
  // snakeToCamel, camelToSnake

  /** The characters `ucwords` treats as word separators: " \t\r\n\f\v". */
  predicate IsWordSeparator(c: char) {
    c == ' ' || c == '\t' || c == '\r' || c == '\n' || c == '\U{0C}' || c == '\U{0B}'
  }

  /** str_replace(from, to, s) for one-character needles. */
  function ReplaceChar(s: string, from: char, to: char): (r: string)
    ensures |r| == |s|
    ensures forall i :: 0 <= i < |s| ==> r[i] == if s[i] == from then to else s[i]
  {
    seq(|s|, i requires 0 <= i < |s| => if s[i] == from then to else s[i])
  }

  /** s with every character of `drop` removed. */
  function Without(s: string, drop: set<char>): (r: string)
    ensures forall c :: c in r ==> c in s && c !in drop
  {
    if s == [] then [] else (if s[0] in drop then [] else [s[0]]) + Without(s[1..], drop)
  }

  /** ucwords(s) */
  function UcWords(s: string): (r: string)
  {
    seq(|s|, i requires 0 <= i < |s| => if i == 0 || IsWordSeparator(s[i - 1]) then Upper(s[i]) else s[i])
  }

  /** lcfirst(s) */
  function LcFirst(s: string): (r: string)
    ensures |r| == |s|
    ensures r != [] ==> r[0] == Lower(s[0]) && r[1..] == s[1..]
  {
    if s == [] then [] else [Lower(s[0])] + s[1..]
  }

  /** snakeToCamel */
  function SnakeToCamel(s: string): (r: string)
    ensures '_' !in r && ' ' !in r
    ensures r == [] || !IsAsciiUpper(r[0])
  {
    var t := ReplaceChar(s, '_', ' ');
    UcWordsNoUnderscore(t);
    var u := UcWords(t);
    var v := Without(u, {' '});
    var r := LcFirst(v);
    assert r == [] || r == [Lower(v[0])] + v[1..];
    r
  }

  /** ucwords only changes the case of letters, so it adds no '_'. */
  lemma UcWordsNoUnderscore(t: string)
    requires '_' !in t
    ensures '_' !in UcWords(t)
  {
    var u := UcWords(t);
    forall i | 0 <= i < |u| ensures u[i] != '_' {
      assert t[i] in t;
    }
  }

  lemma LowerUpper(c: char)
    ensures Lower(Upper(c)) == Lower(c)
  {
  }

  lemma LowerUcWords(t: string)
    ensures LowerStr(UcWords(t)) == LowerStr(t)
  {
    var u := UcWords(t);
    forall i | 0 <= i < |t| ensures Lower(u[i]) == Lower(t[i]) {
      LowerUpper(t[i]);
    }
    assert LowerStr(u) == LowerStr(t);
  }

  lemma LowerLcFirst(v: string)
    ensures LowerStr(LcFirst(v)) == LowerStr(v)
  {
    if v != [] {
      assert LowerStr(LcFirst(v))[0] == LowerStr(v)[0];
    }
  }

  /** snakeToCamel keeps the letters: up to case, it only drops the
      underscores and spaces. */
  lemma SnakeToCamelLetters(s: string)
    ensures LowerStr(SnakeToCamel(s)) == Without(LowerStr(s), {'_', ' '})
  {
    var t := ReplaceChar(s, '_', ' ');
    var u := UcWords(t);
    var v := Without(u, {' '});
    calc {
      LowerStr(SnakeToCamel(s));
      LowerStr(LcFirst(v));
      { LowerLcFirst(v); }
      LowerStr(v);
      { LowerWithout(u, {' '}); }
      Without(LowerStr(u), {' '});
      { LowerUcWords(t); }
      Without(LowerStr(t), {' '});
      { LowerWithout(t, {' '}); }
      LowerStr(Without(t, {' '}));
      { WithoutReplaced(s); }
      LowerStr(Without(s, {'_', ' '}));
      { LowerWithout(s, {'_', ' '}); }
      Without(LowerStr(s), {'_', ' '});
    }
  }

  lemma {:induction false} WithoutReplaced(s: string)
    ensures Without(ReplaceChar(s, '_', ' '), {' '}) == Without(s, {'_', ' '})
  {
    if s != [] {
      WithoutReplaced(s[1..]);
      assert ReplaceChar(s, '_', ' ')[1..] == ReplaceChar(s[1..], '_', ' ');
    }
  }

  /** Lower-casing commutes with dropping characters that are not letters. */
  lemma {:induction false} LowerWithout(s: string, drop: set<char>)
    requires forall c :: c in drop ==> !IsAsciiUpper(c) && !IsAsciiLower(c)
    ensures LowerStr(Without(s, drop)) == Without(LowerStr(s), drop)
  {
    if s != [] {
      LowerWithout(s[1..], drop);
      assert LowerStr(s)[1..] == LowerStr(s[1..]);
      LowerAppend(if s[0] in drop then [] else [s[0]], Without(s[1..], drop));
    }
  }

  lemma {:induction false} LowerAppend(a: string, b: string)
    ensures LowerStr(a + b) == LowerStr(a) + LowerStr(b)
  {
    assert LowerStr(a + b) == LowerStr(a) + LowerStr(b) by {
      forall i | 0 <= i < |a + b| ensures LowerStr(a + b)[i] == (LowerStr(a) + LowerStr(b))[i] {
      }
    }
  }

  /** The text preg_replace('/([a-z])([A-Z])/', '$1_$2', s) gives, scanning left
      to right without overlap. */
  function SplitCamel(s: string): (r: string)
  {
    if |s| >= 2 && IsAsciiLower(s[0]) && IsAsciiUpper(s[1]) then [s[0], '_', s[1]] + SplitCamel(s[2..])
    else if s == [] then []
    else [s[0]] + SplitCamel(s[1..])
  }

  /** camelToSnake */
  function CamelToSnake(s: string): (r: string)
    ensures forall i :: 0 <= i < |r| ==> !IsAsciiUpper(r[i])
  {
    LowerStr(SplitCamel(s))
  }

  /** camelToSnake only inserts underscores: dropping them again gives the
      lower-cased input. */
  lemma CamelToSnakeLetters(s: string)
    requires '_' !in s
    ensures Without(CamelToSnake(s), {'_'}) == LowerStr(s)
  {
    SplitCamelWithout(s);
    LowerWithout(SplitCamel(s), {'_'});
  }

  lemma {:induction false} SplitCamelWithout(s: string)
    requires '_' !in s
    ensures Without(SplitCamel(s), {'_'}) == s
  {
    if |s| >= 2 && IsAsciiLower(s[0]) && IsAsciiUpper(s[1]) {
      SplitCamelWithout(s[2..]);
      WithoutPair(s[0], s[1], SplitCamel(s[2..]));
      assert s == [s[0]] + ([s[1]] + s[2..]);
    } else if s != [] {
      SplitCamelWithout(s[1..]);
      WithoutCons(s[0], SplitCamel(s[1..]), {'_'});
      assert s == [s[0]] + s[1..];
    }
  }

  /** Dropping underscores from "a_b" + rest, for letters a and b. */
  lemma WithoutPair(a: char, b: char, rest: string)
    requires a != '_' && b != '_'
    ensures Without([a, '_', b] + rest, {'_'}) == [a] + ([b] + Without(rest, {'_'}))
  {
    assert [a, '_', b] + rest == [a] + (['_'] + ([b] + rest));
    WithoutCons(a, ['_'] + ([b] + rest), {'_'});
    WithoutCons('_', [b] + rest, {'_'});
    WithoutCons(b, rest, {'_'});
  }

  lemma WithoutCons(c: char, rest: string, drop: set<char>)
    ensures Without([c] + rest, drop) == (if c in drop then [] else [c]) + Without(rest, drop)
  {
    assert ([c] + rest)[1..] == rest;
  }

  // ---------------------------------------------------------------------------
  // getRelativePath

  /** The number of leading segments on which the two paths agree. */
  function CommonPrefix(a: seq<string>, b: seq<string>): (k: nat)
    ensures k <= |a| && k <= |b|
    ensures a[..k] == b[..k]
    ensures k < |a| && k < |b| ==> a[k] != b[k]
  {
    if a == [] || b == [] || a[0] != b[0] then 0
    else
      var k := CommonPrefix(a[1..], b[1..]);
      assert a[..k + 1] == [a[0]] + a[1..][..k];
      assert b[..k + 1] == [b[0]] + b[1..][..k];
      k + 1
  }

  function Dots(n: nat): (r: seq<string>)
    ensures |r| == n && forall i :: 0 <= i < n ==> r[i] == ".."
  {
    if n == 0 then [] else [".."] + Dots(n - 1)
  }

  /** The segments getRelativePath joins: the part of `to` after the common
      prefix, preceded by one ".." per remaining segment of `from`. */
  function RelativeSegments(from: seq<string>, to: seq<string>): seq<string> {
    var k := CommonPrefix(from, to);
    Dots(|from| - k) + to[k..]
  }

  /** getRelativePath: walks `from`, dropping the head of the result for each
      matching segment and padding with ".." at the first mismatch. */
  method GetRelativePath(fromPath: string, toPath: string) returns (r: string)
    ensures r == Join(RelativeSegments(Split(RTrimChar(fromPath, '/'), '/'), Split(RTrimChar(toPath, '/'), '/')), "/")
  {
    var from := Split(RTrimChar(fromPath, '/'), '/');
    var to := Split(RTrimChar(toPath, '/'), '/');
    var relPath := to;
    var depth := 0;
    while depth < |from|
      invariant depth <= |from| && depth <= |to|
      invariant from[..depth] == to[..depth]
      invariant relPath == to[depth..]
      decreases |from| - depth
    {
      if depth < |to| && from[depth] == to[depth] {
        relPath := relPath[1..];
        PrefixGrows(from, to, depth);
        depth := depth + 1;
      } else {
        RelativeAt(from, to, depth);
        relPath := Dots(|from| - depth) + relPath;
        r := Join(relPath, "/");
        return;
      }
    }
    RelativeAt(from, to, depth);
    assert Dots(0) + relPath == relPath;
    r := Join(relPath, "/");
  }

  lemma PrefixGrows(a: seq<string>, b: seq<string>, k: nat)
    requires k < |a| && k < |b| && a[..k] == b[..k] && a[k] == b[k]
    ensures a[..k + 1] == b[..k + 1]
  {
    assert a[..k + 1] == a[..k] + [a[k]];
    assert b[..k + 1] == b[..k] + [b[k]];
  }

  /** Where the walk stops, the relative segments are the remaining ".." steps
      and the rest of `to`. */
  lemma RelativeAt(a: seq<string>, b: seq<string>, k: nat)
    requires k <= |a| && k <= |b| && a[..k] == b[..k]
    requires k == |a| || k == |b| || a[k] != b[k]
    ensures RelativeSegments(a, b) == Dots(|a| - k) + b[k..]
  {
    CommonPrefixIs(a, b, k);
  }

  lemma {:induction false} CommonPrefixIs(a: seq<string>, b: seq<string>, k: nat)
    requires k <= |a| && k <= |b| && a[..k] == b[..k]
    requires k == |a| || k == |b| || a[k] != b[k]
    ensures CommonPrefix(a, b) == k
  {
    if k > 0 {
      assert a[0] == a[..k][0] == b[..k][0] == b[0];
      assert a[1..][..k - 1] == a[..k][1..];
      assert b[1..][..k - 1] == b[..k][1..];
      CommonPrefixIs(a[1..], b[1..], k - 1);
    }
  }

  /** The relative path from a directory to itself is empty, and from a
      directory to a path below it is the extra segments. */
  lemma RelativeToDescendant(from: seq<string>, extra: seq<string>)
    ensures RelativeSegments(from, from + extra) == extra
  {
    CommonPrefixIs(from, from + extra, |from|);
    assert (from + extra)[|from|..] == extra;
  }

  lemma RelativeToSelf(path: string)
    ensures Join(RelativeSegments(Split(RTrimChar(path, '/'), '/'), Split(RTrimChar(path, '/'), '/')), "/") == ""
  {
    var p := Split(RTrimChar(path, '/'), '/');
    RelativeToDescendant(p, []);
    assert p + [] == p;
  }
}
