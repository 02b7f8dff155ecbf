/** The PHP string built-ins the model relies on, over byte strings modelled as
    `seq<char>` holding ASCII.  Each function follows the PHP function named in
    its comment (PHP 8 semantics; `strtolower` and friends are ASCII-only). */
module Text {
  import opened Wrappers

  /** The characters `trim`, `ltrim` and `rtrim` strip by default:
      " \t\n\r\0\x0B". */
  predicate IsTrimChar(c: char) {
    c == ' ' || c == '\t' || c == '\n' || c == '\r' || c == '\0' || c == '\U{0B}'
  }

  predicate IsAsciiUpper(c: char) { 'A' <= c <= 'Z' }
  predicate IsAsciiLower(c: char) { 'a' <= c <= 'z' }
  predicate IsDigit(c: char) { '0' <= c <= '9' }

  /** PCRE's `\s`: space, tab, line feed, vertical tab, form feed, carriage
      return.  Not the same set as trim's: `\f` is one, `\0` is not. */
  predicate IsPcreSpace(c: char) {
    c == ' ' || c == '\t' || c == '\n' || c == '\U{0B}' || c == '\U{0C}' || c == '\r'
  }

  /** PHP truthiness of a string (`!empty($s)`, `if ($s)`): "" and "0" are
      false, every other string is true. */
  predicate Truthy(s: string) {
    s != "" && s != "0"
  }

  function Lower(c: char): (r: char)
    ensures !IsAsciiUpper(r)
    ensures IsAsciiUpper(c) || r == c
  {
    if IsAsciiUpper(c) then (c as int + 32) as char else c
  }

  function Upper(c: char): (r: char)
    ensures !IsAsciiLower(r)
    ensures IsAsciiLower(c) || r == c
  {
    if IsAsciiLower(c) then (c as int - 32) as char else c
  }

  /** strtolower */
  function LowerStr(s: string): (r: string)
    ensures |r| == |s|
    ensures forall i :: 0 <= i < |s| ==> r[i] == Lower(s[i])
  {
    if s == [] then [] else [Lower(s[0])] + LowerStr(s[1..])
  }

  /** strcasecmp(a, b) === 0 */
  predicate EqualsIgnoreCase(a: string, b: string) {
    LowerStr(a) == LowerStr(b)
  }

  /** strpos($s, $p) === 0 */
  predicate StartsWith(s: string, p: string) {
    |p| <= |s| && s[..|p|] == p
  }

  lemma StartsWithConcat(a: string, b: string)
    ensures StartsWith(a + b, a)
  {
    assert (a + b)[..|a|] == a;
  }

  /** strpos($s, $p, $from): the first index at or after `from` where `p` occurs. */
  function IndexOfFrom(s: string, p: string, from: nat): (r: Option<nat>)
    requires from <= |s|
    ensures r.Some? ==> from <= r.value && r.value + |p| <= |s| && s[r.value..r.value + |p|] == p
    ensures r.Some? ==> forall j :: from <= j < r.value ==> !StartsWith(s[j..], p)
    ensures r.None? ==> forall j :: from <= j <= |s| ==> !StartsWith(s[j..], p)
    decreases |s| - from
  {
    if StartsWith(s[from..], p) then Some(from)
    else if from == |s| then None
    else IndexOfFrom(s, p, from + 1)
  }

  /** strpos($s, $p) !== false */
  predicate Contains(s: string, p: string) {
    IndexOfFrom(s, p, 0).Some?
  }

  /** stripos($s, $p) !== false */
  predicate ContainsIgnoreCase(s: string, p: string) {
    Contains(LowerStr(s), LowerStr(p))
  }

  /** A subject that contains a needle contains every prefix of it. */
  lemma ContainsPrefix(s: string, p: string, q: string)
    requires Contains(s, p) && StartsWith(p, q)
    ensures Contains(s, q)
  {
    var k := IndexOfFrom(s, p, 0).value;
    assert s[k..][..|q|] == p[..|q|];
    assert StartsWith(s[k..], q);
  }

  /** ltrim($s) */
  function LTrim(s: string): (r: string)
    ensures |r| <= |s| && r == s[|s| - |r|..]
    ensures r == [] || !IsTrimChar(r[0])
    ensures forall i :: 0 <= i < |s| - |r| ==> IsTrimChar(s[i])
  {
    if s != [] && IsTrimChar(s[0]) then LTrim(s[1..]) else s
  }

  /** rtrim($s) */
  function RTrim(s: string): (r: string)
    ensures |r| <= |s| && r == s[..|r|]
    ensures r == [] || !IsTrimChar(r[|r| - 1])
    ensures forall i :: |r| <= i < |s| ==> IsTrimChar(s[i])
  {
    if s != [] && IsTrimChar(s[|s| - 1]) then RTrim(s[..|s| - 1]) else s
  }

  /** trim($s) */
  function Trim(s: string): (r: string)
    ensures |r| <= |s|
    ensures r == [] || (!IsTrimChar(r[0]) && !IsTrimChar(r[|r| - 1]))
  {
    RTrim(LTrim(s))
  }

  /** The characters trim strips at the front of `s`. */
  function Leading(s: string): (r: string)
    ensures forall i :: 0 <= i < |r| ==> IsTrimChar(r[i])
  {
    s[..|s| - |LTrim(s)|]
  }

  /** The characters trim strips at the back of `s`. */
  function Trailing(s: string): (r: string)
    ensures forall i :: 0 <= i < |r| ==> IsTrimChar(r[i])
  {
    var l := LTrim(s);
    l[|RTrim(l)|..]
  }

  /** A string is its trimmed text between the stripped characters. */
  lemma TrimParts(s: string)
    ensures s == Leading(s) + Trim(s) + Trailing(s)
  {
    LeadingSplit(s);
    TrailingSplit(s);
    Regrouped(s, Leading(s), LTrim(s), Trim(s), Trailing(s));
  }

  lemma LeadingSplit(s: string)
    ensures s == Leading(s) + LTrim(s)
  {
    var l := LTrim(s);
    assert l == s[|s| - |l|..];
  }

  lemma TrailingSplit(s: string)
    ensures LTrim(s) == Trim(s) + Trailing(s)
  {
    var l := LTrim(s);
    assert RTrim(l) == l[..|RTrim(l)|];
  }

  lemma Regrouped(s: string, a: string, l: string, b: string, c: string)
    requires s == a + l && l == b + c
    ensures s == a + b + c
  {
  }

  lemma {:induction false} LTrimPadded(a: string, y: string)
    requires forall i :: 0 <= i < |a| ==> IsTrimChar(a[i])
    requires y == [] || !IsTrimChar(y[0])
    ensures LTrim(a + y) == y
  {
    if a == [] {
      assert a + y == y;
    } else {
      assert IsTrimChar(a[0]);
      assert (a + y)[1..] == a[1..] + y;
      LTrimPadded(a[1..], y);
    }
  }

  lemma {:induction false} RTrimPadded(y: string, b: string)
    requires forall i :: 0 <= i < |b| ==> IsTrimChar(b[i])
    requires y == [] || !IsTrimChar(y[|y| - 1])
    ensures RTrim(y + b) == y
  {
    if b == [] {
      assert y + b == y;
    } else {
      assert IsTrimChar(b[|b| - 1]);
      assert (y + b)[..|y + b| - 1] == y + b[..|b| - 1];
      RTrimPadded(y, b[..|b| - 1]);
    }
  }

  /** Trimming text padded with trim characters gives the text back. */
  lemma TrimPadded(a: string, x: string, b: string)
    requires forall i :: 0 <= i < |a| ==> IsTrimChar(a[i])
    requires forall i :: 0 <= i < |b| ==> IsTrimChar(b[i])
    requires x != [] && !IsTrimChar(x[0]) && !IsTrimChar(x[|x| - 1])
    ensures Trim(a + x + b) == x
  {
    assert a + x + b == a + (x + b);
    LTrimPadded(a, x + b);
    RTrimPadded(x, b);
  }

  /** A string ending in a character trim keeps still has something left
      after trimming. */
  lemma TrimKeepsLast(s: string)
    requires s != [] && !IsTrimChar(s[|s| - 1])
    ensures Trim(s) != []
  {
    var l := LTrim(s);
    assert |s| - 1 >= |s| - |l|;
    assert l[|l| - 1] == s[|s| - 1];
  }

  /** str_replace of a string's own trimmed text replaces that text once,
      keeping the characters around it. */
  lemma ReplaceTrimmed(s: string, x: string)
    requires Trim(s) != []
    ensures ReplaceAll(s, Trim(s), x) == Leading(s) + x + Trailing(s)
  {
    var t, lead, trail := Trim(s), Leading(s), Trailing(s);
    TrimParts(s);
    assert t[0] !in lead;
    assert t[0] !in trail;
    assert s == lead + (t + trail);
    ReplaceAllSkip(lead, t + trail, t, x);
    assert StartsWith(t + trail, t);
    assert (t + trail)[|t|..] == trail;
    ReplaceAllAbsent(trail, t, x);
  }

  /** ltrim($s, $c) for a single character `c` */
  function LTrimChar(s: string, c: char): (r: string)
    ensures r == [] || r[0] != c
    ensures |r| <= |s| && r == s[|s| - |r|..]
  {
    if s != [] && s[0] == c then LTrimChar(s[1..], c) else s
  }

  /** rtrim($s, $c) for a single character `c` */
  function RTrimChar(s: string, c: char): (r: string)
    ensures r == [] || r[|r| - 1] != c
    ensures |r| <= |s| && r == s[..|r|]
  {
    if s != [] && s[|s| - 1] == c then RTrimChar(s[..|s| - 1], c) else s
  }

  lemma LTrimCharLead(s: string, c: char)
    ensures LTrimChar([c] + s, c) == LTrimChar(s, c)
  {
    assert ([c] + s)[1..] == s;
  }

  lemma LTrimCharNone(s: string, c: char)
    requires s == [] || s[0] != c
    ensures LTrimChar(s, c) == s
  {
  }

  lemma RTrimCharTrail(s: string, c: char)
    ensures RTrimChar(s + [c], c) == RTrimChar(s, c)
  {
    assert (s + [c])[..|s|] == s;
  }

  lemma RTrimCharNone(s: string, c: char)
    requires s == [] || s[|s| - 1] != c
    ensures RTrimChar(s, c) == s
  {
  }

  /** trim($s, $c) for a single character `c` */
  function TrimChar(s: string, c: char): string {
    RTrimChar(LTrimChar(s, c), c)
  }

  /** substr_count($s, $c) for a one-character needle */
  function CountChar(s: string, c: char): (n: nat)
    ensures n <= |s|
  {
    if s == [] then 0 else (if s[0] == c then 1 else 0) + CountChar(s[1..], c)
  }

  lemma {:induction false} CountCharAppend(a: string, b: string, c: char)
    ensures CountChar(a + b, c) == CountChar(a, c) + CountChar(b, c)
  {
    if a == [] {
      assert a + b == b;
    } else {
      assert (a + b)[0] == a[0];
      assert (a + b)[1..] == a[1..] + b;
      CountCharAppend(a[1..], b, c);
    }
  }

  /** explode($d, $s) for a one-character delimiter */
  function Split(s: string, d: char): (r: seq<string>)
    ensures |r| >= 1
    ensures forall i :: 0 <= i < |r| ==> d !in r[i]
  {
    if s == [] then [""]
    else if s[0] == d then [""] + Split(s[1..], d)
    else
      var rest := Split(s[1..], d);
      [[s[0]] + rest[0]] + rest[1..]
  }

  /** implode($sep, $parts) */
  function Join(parts: seq<string>, sep: string): string {
    if |parts| == 0 then ""
    else if |parts| == 1 then parts[0]
    else parts[0] + sep + Join(parts[1..], sep)
  }

  /** Splitting on `d` and joining with `d` gives back the input. */
  lemma {:induction false} JoinSplit(s: string, d: char)
    ensures Join(Split(s, d), [d]) == s
  {
    if s != [] {
      var rest := Split(s[1..], d);
      JoinSplit(s[1..], d);
      if s[0] == d {
        assert Split(s, d) == [""] + rest;
        assert ([""] + rest)[1..] == rest;
      } else {
        var parts := [[s[0]] + rest[0]] + rest[1..];
        assert Split(s, d) == parts;
        if |rest| == 1 {
          assert Join(parts, [d]) == [s[0]] + rest[0];
        } else {
          assert parts[1..] == rest[1..];
          assert Join(parts, [d]) == [s[0]] + rest[0] + [d] + Join(rest[1..], [d]);
        }
      }
    }
  }

  /** Joining pieces free of `d` with `d` and splitting again gives back the pieces. */
  lemma {:induction false} SplitJoin(parts: seq<string>, d: char)
    requires |parts| >= 1
    requires forall i :: 0 <= i < |parts| ==> d !in parts[i]
    ensures Split(Join(parts, [d]), d) == parts
  {
    if |parts| == 1 {
      SplitNoDelimiter(parts[0], d);
    } else {
      SplitJoin(parts[1..], d);
      SplitPrefix(parts[0], Join(parts[1..], [d]), d);
      assert Join(parts, [d]) == parts[0] + ([d] + Join(parts[1..], [d]));
      assert [parts[0]] + parts[1..] == parts;
    }
  }

  lemma {:induction false} SplitNoDelimiter(s: string, d: char)
    requires d !in s
    ensures Split(s, d) == [s]
  {
    if s != [] {
      SplitNoDelimiter(s[1..], d);
      assert [s[0]] + s[1..] == s;
    }
  }

  /** Splitting `a + d + b` where `a` is free of `d`. */
  lemma {:induction false} SplitPrefix(a: string, b: string, d: char)
    requires d !in a
    ensures Split(a + [d] + b, d) == [a] + Split(b, d)
  {
    if a == [] {
      assert a + [d] + b == [d] + b;
      assert ([d] + b)[1..] == b;
    } else {
      assert (a + [d] + b)[1..] == a[1..] + [d] + b;
      SplitPrefix(a[1..], b, d);
      assert [a[0]] + a[1..] == a;
    }
  }

  /** explode yields one more piece than there are delimiters. */
  lemma {:induction false} SplitCount(s: string, d: char)
    ensures |Split(s, d)| == CountChar(s, d) + 1
  {
    if s != [] {
      SplitCount(s[1..], d);
    }
  }

  /** str_replace($needle, $repl, $s): every non-overlapping occurrence of
      `needle`, scanning left to right, is replaced; an empty needle leaves the
      subject unchanged. */
  function ReplaceAll(s: string, needle: string, repl: string): string
    decreases |s|
  {
    if needle == [] || s == [] then s
    else if StartsWith(s, needle) then repl + ReplaceAll(s[|needle|..], needle, repl)
    else [s[0]] + ReplaceAll(s[1..], needle, repl)
  }

  /** A subject without the needle's first character is left unchanged. */
  lemma {:induction false} ReplaceAllAbsent(s: string, needle: string, repl: string)
    requires needle != [] && needle[0] !in s
    ensures ReplaceAll(s, needle, repl) == s
  {
    if s != [] {
      assert s[0] != needle[0];
      ReplaceAllAbsent(s[1..], needle, repl);
      assert [s[0]] + s[1..] == s;
    }
  }

  /** A prefix without the needle's first character is copied through. */
  lemma {:induction false} ReplaceAllSkip(a: string, b: string, needle: string, repl: string)
    requires needle != [] && needle[0] !in a
    ensures ReplaceAll(a + b, needle, repl) == a + ReplaceAll(b, needle, repl)
  {
    if a == [] {
      assert a + b == b;
    } else {
      assert (a + b)[0] == a[0] != needle[0];
      assert (a + b)[1..] == a[1..] + b;
      ReplaceAllSkip(a[1..], b, needle, repl);
      assert [a[0]] + a[1..] == a;
    }
  }

  /** Replacing a needle by itself changes nothing. */
  lemma {:induction false} ReplaceAllSelf(s: string, needle: string)
    ensures ReplaceAll(s, needle, needle) == s
    decreases |s|
  {
    if needle != [] && s != [] {
      if StartsWith(s, needle) {
        ReplaceAllSelf(s[|needle|..], needle);
        assert needle + s[|needle|..] == s;
      } else {
        ReplaceAllSelf(s[1..], needle);
        assert [s[0]] + s[1..] == s;
      }
    }
  }

  /** A subject that contains no occurrence of the needle is left unchanged. */
  lemma {:induction false} ReplaceAllNoOccurrence(s: string, needle: string, repl: string)
    requires forall j :: 0 <= j <= |s| ==> !StartsWith(s[j..], needle)
    ensures ReplaceAll(s, needle, repl) == s
  {
    if needle != [] && s != [] {
      assert s[0..] == s;
      forall j | 0 <= j <= |s| - 1 ensures !StartsWith(s[1..][j..], needle) {
        assert s[1..][j..] == s[j + 1..];
      }
      ReplaceAllNoOccurrence(s[1..], needle, repl);
      assert [s[0]] + s[1..] == s;
    }
  }

  /** str_repeat($s, $n) */
  function Repeat(s: string, n: nat): (r: string)
    ensures |r| == n * |s|
  {
    if n == 0 then "" else s + Repeat(s, n - 1)
  }

  /** substr($s, 0, $len) (PHP 8): a negative length drops that many characters
      from the end, and the result is "" when nothing is left. */
  function Prefix(s: string, len: int): (r: string)
    ensures |r| <= |s| && r == s[..|r|]
    ensures len >= 0 ==> |r| == if len <= |s| then len else |s|
    ensures len < 0 ==> |r| == if |s| + len >= 0 then |s| + len else 0
  {
    if len >= 0 then (if len <= |s| then s[..len] else s)
    else if |s| + len >= 0 then s[..|s| + len] else ""
  }

  function DigitValue(c: char): nat
    requires IsDigit(c)
  {
    c as nat - '0' as nat
  }

  /** The length of the run of decimal digits at the start of `s`. */
  function DigitRun(s: string): (n: nat)
    ensures n <= |s|
    ensures forall i :: 0 <= i < n ==> IsDigit(s[i])
    ensures n == |s| || !IsDigit(s[n])
  {
    if s != [] && IsDigit(s[0]) then 1 + DigitRun(s[1..]) else 0
  }

  /** The value of a string of decimal digits. */
  function DigitsValue(s: string): nat
    requires forall i :: 0 <= i < |s| ==> IsDigit(s[i])
  {
    if s == [] then 0 else DigitsValue(s[..|s| - 1]) * 10 + DigitValue(s[|s| - 1])
  }

  /** The whitespace PHP skips before a numeric string: " \t\n\r\v\f". */
  predicate IsNumericSpace(c: char) {
    c == ' ' || c == '\t' || c == '\n' || c == '\r' || c == '\U{0B}' || c == '\U{0C}'
  }

  function SkipNumericSpace(s: string): (r: string)
    ensures |r| <= |s|
  {
    if s != [] && IsNumericSpace(s[0]) then SkipNumericSpace(s[1..]) else s
  }

  /** (int)$s: leading whitespace, an optional sign and the leading digits;
      a string without leading digits is 0. */
  function ToInt(s: string): int {
    var t := SkipNumericSpace(s);
    if t != [] && (t[0] == '-' || t[0] == '+') then
      var n: int := DigitsValue(t[1..][..DigitRun(t[1..])]);
      if t[0] == '-' then -n else n
    else DigitsValue(t[..DigitRun(t)])
  }

  function NatToString(n: nat): (r: string)
    ensures |r| >= 1
    ensures forall i :: 0 <= i < |r| ==> IsDigit(r[i])
  {
    if n < 10 then [('0' as int + n) as char]
    else NatToString(n / 10) + [('0' as int + n % 10) as char]
  }

  /** The decimal form PHP gives an integer in string interpolation. */
  function IntToString(n: int): (r: string)
    ensures forall c :: c in r ==> c == '-' || IsDigit(c)
  {
    if n >= 0 then NatToString(n) else "-" + NatToString(-n)
  }

  lemma {:induction false} NatToStringValue(n: nat)
    ensures DigitsValue(NatToString(n)) == n
  {
    if n >= 10 {
      var r := NatToString(n);
      NatToStringValue(n / 10);
      assert r[..|r| - 1] == NatToString(n / 10);
    }
  }

  /** Two pieces free of `d`, joined by `d`, split back into the two. */
  lemma SplitPair(a: string, b: string, d: char)
    requires d !in a && d !in b
    ensures Split(a + [d] + b, d) == [a, b]
  {
    SplitJoin([a, b], d);
    assert Join([a, b], [d]) == a + [d] + b;
  }

  /** The decimal form of an integer holds no '.'. */
  lemma NoDotInIntToString(n: int)
    ensures '.' !in IntToString(n)
  {
  }

  lemma {:induction false} DigitRunAll(s: string)
    requires forall i :: 0 <= i < |s| ==> IsDigit(s[i])
    ensures DigitRun(s) == |s|
  {
    if s != [] {
      DigitRunAll(s[1..]);
    }
  }

  /** (int) reads back the decimal form of every integer. */
  lemma ToIntIntToString(n: int)
    ensures ToInt(IntToString(n)) == n
  {
    if n >= 0 {
      var s := NatToString(n);
      assert SkipNumericSpace(s) == s;
      DigitRunAll(s);
      assert s[..|s|] == s;
      NatToStringValue(n);
    } else {
      var s := "-" + NatToString(-n);
      assert SkipNumericSpace(s) == s;
      assert s[1..] == NatToString(-n);
      DigitRunAll(s[1..]);
      assert s[1..][..|s[1..]|] == s[1..];
      NatToStringValue(-n);
    }
  }

  /** The first two pieces of a join are its prefix. */
  lemma {:induction false} JoinFirstTwo(parts: seq<string>, sep: string)
    requires |parts| >= 2
    ensures var p := parts[0] + sep + parts[1];
      |p| <= |Join(parts, sep)| && Join(parts, sep)[..|p|] == p
  {
    var rest := Join(parts[1..], sep);
    assert parts[1..][0] == parts[1];
    if |parts| == 2 {
      assert rest == parts[1];
    } else {
      JoinFirst(parts[1..], sep);
    }
  }

  /** The first piece of a join is its prefix. */
  lemma JoinFirst(parts: seq<string>, sep: string)
    requires |parts| >= 1
    ensures |parts[0]| <= |Join(parts, sep)| && Join(parts, sep)[..|parts[0]|] == parts[0]
  {
  }

  /** The text after the last '/'. */
  function LastSegment(path: string): (r: string)
    ensures '/' !in r
    ensures |r| <= |path|
  {
    if path == [] then ""
    else if path[|path| - 1] == '/' then ""
    else LastSegment(path[..|path| - 1]) + [path[|path| - 1]]
  }

  /** basename($path): trailing '/' characters are dropped, then the text
      after the last '/' remains. */
  function Basename(path: string): (r: string)
    ensures '/' !in r
    ensures |r| <= |path|
  {
    LastSegment(RTrimChar(path, '/'))
  }

  /** The extension of a path as `pathinfo($p, PATHINFO_EXTENSION)` and
      `SplFileInfo::getExtension` give it: the text after the last '.' of the
      base name, or "" when the base name has no '.'. */
  function Extension(path: string): (r: string)
    ensures '.' !in r && '/' !in r
  {
    AfterLastDot(Basename(path))
  }

  function AfterLastDot(name: string): (r: string)
    ensures '.' !in r
    ensures r != [] ==> '.' in name
    ensures |r| <= |name|
    ensures forall c :: c in r ==> c in name
  {
    if name == [] then ""
    else if name[|name| - 1] == '.' then ""
    else if '.' !in name[..|name| - 1] then ""
    else AfterLastDot(name[..|name| - 1]) + [name[|name| - 1]]
  }

  // ---------------------------------------------------------------------------
  // Numeric strings and loose equality

  function Pow10(n: nat): (r: nat)
    ensures r >= 1
  {
    if n == 0 then 1 else 10 * Pow10(n - 1)
  }

  function RTrimNumericSpace(s: string): (r: string)
    ensures |r| <= |s|
  {
    if s != [] && IsNumericSpace(s[|s| - 1]) then RTrimNumericSpace(s[..|s| - 1]) else s
  }

  /** The value of a PHP 8 numeric string as a decimal fraction
      (mantissa, decimals), standing for mantissa / 10^decimals: optional
      surrounding whitespace, an optional sign, then digits with an optional
      fractional part ("7", "7.", ".5", " 7.20 "); None for every other string. */
  function DecimalValue(s: string): Option<(int, nat)>
  {
    var t := RTrimNumericSpace(SkipNumericSpace(s));
    var signed := t != [] && (t[0] == '-' || t[0] == '+');
    var u := if signed then t[1..] else t;
    var k := DigitRun(u);
    var whole := DigitsValue(u[..k]);
    var sign := if signed && t[0] == '-' then -1 else 1;
    if k == |u| then
      (if k == 0 then None else Some((sign * whole, 0)))
    else if u[k] != '.' then None
    else
      var f := u[k + 1..];
      var m := DigitRun(f);
      if m != |f| || (k == 0 && m == 0) then None
      else Some((sign * (whole * Pow10(m) + DigitsValue(f)), m))
  }

  /** `$a == $b` between two strings in PHP 8: two numeric strings compare by
      value, any other pair byte by byte. */
  predicate LooseEquals(a: string, b: string) {
    a == b ||
    (DecimalValue(a).Some? && DecimalValue(b).Some? &&
     DecimalValue(a).value.0 * Pow10(DecimalValue(b).value.1) ==
     DecimalValue(b).value.0 * Pow10(DecimalValue(a).value.1))
  }

  /** A string "a.b" of two digits is numeric, worth 10a + b tenths. */
  lemma DecimalValueDigitDotDigit(a: char, b: char)
    requires IsDigit(a) && IsDigit(b)
    ensures DecimalValue([a, '.', b]) == Some((DigitValue(a) * 10 + DigitValue(b), 1))
  {
    var s := [a, '.', b];
    assert SkipNumericSpace(s) == s;
    assert RTrimNumericSpace(s) == s;
    assert DigitRun(s) == 1 by {
      assert DigitRun(s[1..]) == 0;
    }
    assert s[..1] == [a];
    assert DigitsValue([a]) == DigitValue(a) by {
      assert [a][..0] == [];
    }
    assert s[2..] == [b];
    assert DigitRun([b]) == 1 by {
      assert [b][1..] == [];
    }
    assert DigitsValue([b]) == DigitValue(b) by {
      assert [b][..0] == [];
    }
  }
}
