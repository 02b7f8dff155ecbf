/** The plugin detector (src/Analyzer/PluginDetector.php): the custom
    plugins, modules, themes and packages of an installation, found per
    platform by listing its directories and reading the headers of its
    files. */
module PluginDetector {
  import opened Wrappers
  import opened Text
  import opened Seqs
  import AccessPatterns
  import DependencyChecker

  // ---------------------------------------------------------------------------
  // The installation on disk

  /** What the detector sees of the installation: the directories that
      exist, what `glob` lists for each pattern, in its order, and the files
      with their contents.  The listings are inputs: the GLOB_ONLYDIR
      patterns list directories and the `*.php` pattern lists files, as the
      file system has them. */
  datatype Disk = Disk(dirs: set<string>, globs: map<string, seq<string>>, files: map<string, string>)

  /** is_dir */
  predicate IsDir(disk: Disk, path: string) {
    path in disk.dirs
  }

  /** glob($pattern): nothing when the pattern lists nothing or fails. */
  function Glob(disk: Disk, pattern: string): seq<string> {
    if pattern in disk.globs then disk.globs[pattern] else []
  }

  /** file_exists */
  predicate Exists(disk: Disk, path: string) {
    path in disk.files
  }

  /** file_get_contents($path) */
  function Contents(disk: Disk, path: string): string {
    if path in disk.files then disk.files[path] else ""
  }

  /** How much of a file the header parsers see. */
  const HeaderBytes := 8192

  /** file_get_contents($path, false, null, 0, 8192): the first 8192 bytes. */
  function Head(disk: Disk, path: string): (r: string)
    ensures |r| <= HeaderBytes && |r| <= |Contents(disk, path)| && r == Contents(disk, path)[..|r|]
    ensures |Contents(disk, path)| <= HeaderBytes ==> r == Contents(disk, path)
    ensures |r| == if |Contents(disk, path)| <= HeaderBytes then |Contents(disk, path)| else HeaderBytes
  {
    Prefix(Contents(disk, path), HeaderBytes)
  }

  /** One detected extension. A key the source's array lacks is None:
      composer packages have no path, Magento modules no version, only
      Moodle plugins carry `requires` (`moodleRequires`; None there is null) and only
      Magento modules a vendor. */
  datatype Plugin = Plugin(kind: string, name: string, fullName: string, path: Option<string>,
                           version: Option<string>, moodleRequires: Option<string>,
                           vendor: Option<string>, isCustom: bool)

  // ---------------------------------------------------------------------------
  // The regexes, matched by hand. Each one starts with a literal marker, so
  // its leftmost match starts at the first occurrence of the marker whose
  // remainder the rest of the pattern accepts; and the rest of each
  // pattern accepts in at most one way.

  /** The pattern matches at `k`: `marker` occurs there and `tail` accepts
      what follows it. */
  predicate MatchesAt(content: string, marker: string, tail: string -> Option<string>, k: nat) {
    k + |marker| <= |content| && content[k..k + |marker|] == marker && tail(content[k + |marker|..]).Some?
  }

  /** Where the leftmost match of `marker` followed by what `tail` accepts
      starts, looking at or after `from`. */
  function MatchStart(content: string, marker: string, tail: string -> Option<string>, from: nat): (r: Option<nat>)
    requires from <= |content|
    ensures r.Some? ==> from <= r.value && MatchesAt(content, marker, tail, r.value)
    ensures IndexOfFrom(content, marker, from).None? ==> r.None?
    decreases |content| - from
  {
    match IndexOfFrom(content, marker, from)
    case None => None
    case Some(k) =>
      if tail(content[k + |marker|..]).Some? then Some(k)
      else if k == |content| then None
      else MatchStart(content, marker, tail, k + 1)
  }

  /** strpos finds the first occurrence. */
  lemma FirstOccurrence(content: string, marker: string, k: nat)
    requires k + |marker| <= |content| && content[k..k + |marker|] == marker
    requires forall j :: 0 <= j < k ==> !StartsWith(content[j..], marker)
    ensures IndexOfFrom(content, marker, 0) == Some(k)
  {
    assert content[k..][..|marker|] == content[k..k + |marker|];
    var v := IndexOfFrom(content, marker, 0).value;
    assert content[v..][..|marker|] == content[v..v + |marker|];
  }

  /** The first occurrence of the marker, when its remainder is accepted,
      is where the match starts. */
  lemma MatchStartAt(content: string, marker: string, tail: string -> Option<string>, k: nat)
    requires k + |marker| <= |content| && content[k..k + |marker|] == marker
    requires forall j :: 0 <= j < k ==> !StartsWith(content[j..], marker)
    requires tail(content[k + |marker|..]).Some?
    ensures MatchStart(content, marker, tail, 0) == Some(k)
  {
    FirstOccurrence(content, marker, k);
  }

  /** Where the pieces of `before + marker + rest` sit. */
  lemma Pieces(before: string, marker: string, rest: string)
    ensures (before + marker + rest)[|before|..|before| + |marker|] == marker
    ensures (before + marker + rest)[|before| + |marker|..] == rest
  {
  }

  /** A run of PCRE whitespace in front of `s` is what `\s*` skips. */
  lemma {:induction false} SkipSpacesOver(gap: string, s: string)
    requires forall i :: 0 <= i < |gap| ==> IsPcreSpace(gap[i])
    requires s == [] || !IsPcreSpace(s[0])
    ensures AccessPatterns.SkipSpaces(gap + s) == s
  {
    if gap != [] {
      assert (gap + s)[1..] == gap[1..] + s;
      SkipSpacesOver(gap[1..], s);
    }
  }

  /** The text of `s` before its first line feed: what a greedy `.+` takes. */
  function LineHead(s: string): (r: string)
    ensures |r| <= |s| && r == s[..|r|] && '\n' !in r
    ensures |r| == |s| || s[|r|] == '\n'
  {
    if s == [] || s[0] == '\n' then "" else [s[0]] + LineHead(s[1..])
  }

  lemma {:induction false} LineHeadOf(line: string, after: string)
    requires '\n' !in line
    requires after == [] || after[0] == '\n'
    ensures LineHead(line + after) == line
  {
    if line != [] {
      assert (line + after)[1..] == line[1..] + after;
      LineHeadOf(line[1..], after);
    }
  }

  /** The last character of `s` that is not a line feed. */
  function LastOnLine(s: string): (r: Option<char>)
    ensures r.Some? ==> r.value != '\n' && r.value in s
    ensures r.None? ==> forall i :: 0 <= i < |s| ==> s[i] == '\n'
  {
    if s == [] then None
    else if s[|s| - 1] != '\n' then Some(s[|s| - 1])
    else LastOnLine(s[..|s| - 1])
  }

  /** `\s*(.+)` at the front of `rest`: `\s*` takes the whole whitespace
      run, line feeds included, and `.+` the rest of the line after it.
      When only whitespace is left, backtracking hands `.+` the last
      character of the run that is not a line feed; there is no match when
      there is none. */
  function LineCapture(rest: string): (r: Option<string>)
    ensures r.Some? ==> r.value != [] && '\n' !in r.value
  {
    var w := AccessPatterns.SkipSpaces(rest);
    if w != [] then Some(LineHead(w))
    else match LastOnLine(rest)
      case Some(c) => Some([c])
      case None => None
  }

  /** trim keeps no character its subject lacks. */
  lemma TrimKeepsOut(s: string, c: char)
    requires c !in s
    ensures c !in Trim(s)
  {
    TrimParts(s);
    var t := Trim(s);
    assert |s| == |Leading(s)| + |t| + |Trailing(s)|;
    forall i | 0 <= i < |t|
      ensures t[i] != c
    {
      assert t[i] == s[|Leading(s)| + i];
    }
  }

  /** preg_match('/<marker>\s*(.+)/', $content, $m) then trim($m[1]); None
      when nothing matches, so that the key stays absent. */
  function Header(content: string, marker: string): (r: Option<string>)
    ensures !Contains(content, marker) ==> r.None?
    ensures r.Some? ==> '\n' !in r.value
    ensures r.Some? ==> r.value == [] || (!IsTrimChar(r.value[0]) && !IsTrimChar(r.value[|r.value| - 1]))
  {
    match MatchStart(content, marker, LineCapture, 0)
    case None => None
    case Some(k) =>
      var capture := LineCapture(content[k + |marker|..]).value;
      TrimKeepsOut(capture, '\n');
      Some(Trim(capture))
  }

  /** `\s*(.+)` over whitespace and then a line takes the line. */
  lemma LineFound(gap: string, line: string, after: string)
    requires forall i :: 0 <= i < |gap| ==> IsPcreSpace(gap[i])
    requires line != [] && !IsPcreSpace(line[0]) && '\n' !in line
    requires after == [] || after[0] == '\n'
    ensures LineCapture(gap + line + after) == Some(line)
  {
    assert gap + line + after == gap + (line + after);
    SkipSpacesOver(gap, line + after);
    LineHeadOf(line, after);
  }

  /** The value is the trimmed rest of the line reached from the first
      occurrence of the marker by skipping whitespace; that whitespace may
      span line feeds, so an empty header takes the next line's text. */
  lemma HeaderFound(content: string, marker: string, before: string, gap: string, line: string, after: string)
    requires content == before + marker + (gap + line + after)
    requires forall j :: 0 <= j < |before| ==> !StartsWith(content[j..], marker)
    requires forall i :: 0 <= i < |gap| ==> IsPcreSpace(gap[i])
    requires line != [] && !IsPcreSpace(line[0]) && '\n' !in line
    requires after == [] || after[0] == '\n'
    ensures Header(content, marker) == Some(Trim(line))
  {
    var rest := gap + line + after;
    LineFound(gap, line, after);
    Pieces(before, marker, rest);
    MatchStartAt(content, marker, LineCapture, |before|);
  }

  /** The number of digits at the front of `digits + rest`. */
  lemma {:induction false} DigitRunOver(digits: string, rest: string)
    requires forall i :: 0 <= i < |digits| ==> IsDigit(digits[i])
    requires rest == [] || !IsDigit(rest[0])
    ensures DigitRun(digits + rest) == |digits|
  {
    if digits != [] {
      assert (digits + rest)[1..] == digits[1..] + rest;
      DigitRunOver(digits[1..], rest);
    }
  }

  /** `(\d+);` at the front of `b`: the digits. */
  function NumberText(b: string): (r: Option<string>)
    ensures r.Some? ==> r.value != [] && forall i :: 0 <= i < |r.value| ==> IsDigit(r.value[i])
  {
    var n := DigitRun(b);
    if 0 < n < |b| && b[n] == ';' then Some(b[..n]) else None
  }

  /** Digits ended by ';' are what is captured. */
  lemma NumberTextOf(digits: string, after: string)
    requires digits != [] && forall i :: 0 <= i < |digits| ==> IsDigit(digits[i])
    ensures NumberText(digits + (";" + after)) == Some(digits)
  {
    DigitRunOver(digits, ";" + after);
    assert (digits + (";" + after))[..|digits|] == digits;
  }

  /** `\s*=\s*(\d+);` at the front of `rest`: the digits. */
  function AssignedNumber(rest: string): (r: Option<string>)
    ensures r.Some? ==> r.value != [] && forall i :: 0 <= i < |r.value| ==> IsDigit(r.value[i])
  {
    var a := AccessPatterns.SkipSpaces(rest);
    if a != [] && a[0] == '=' then NumberText(AccessPatterns.SkipSpaces(a[1..])) else None
  }

  /** An assignment of a digit string ended by ';' yields those digits. */
  lemma AssignedNumberOf(gap1: string, gap2: string, digits: string, after: string)
    requires forall i :: 0 <= i < |gap1| ==> IsPcreSpace(gap1[i])
    requires forall i :: 0 <= i < |gap2| ==> IsPcreSpace(gap2[i])
    requires digits != [] && forall i :: 0 <= i < |digits| ==> IsDigit(digits[i])
    ensures AssignedNumber(gap1 + ("=" + (gap2 + (digits + (";" + after))))) == Some(digits)
  {
    var b := digits + (";" + after);
    var assignment := "=" + (gap2 + b);
    assert AccessPatterns.SkipSpaces(gap1 + assignment) == assignment by {
      SkipSpacesOver(gap1, assignment);
    }
    assert AccessPatterns.SkipSpaces(assignment[1..]) == b by {
      assert assignment[1..] == gap2 + b;
      assert b[0] == digits[0];
      SkipSpacesOver(gap2, b);
    }
    NumberTextOf(digits, after);
  }

  /** A value of version.php: preg_match of
      `\$plugin-><key>\s*=\s*(\d+);` and its capture. */
  function MoodleField(content: string, key: string): (r: Option<string>)
    ensures !Contains(content, "$plugin->" + key) ==> r.None?
    ensures r.Some? ==> r.value != [] && forall i :: 0 <= i < |r.value| ==> IsDigit(r.value[i])
  {
    var marker := "$plugin->" + key;
    match MatchStart(content, marker, AssignedNumber, 0)
    case None => None
    case Some(k) => AssignedNumber(content[k + |marker|..])
  }

  predicate IsQuote(c: char) {
    c == '\'' || c == '"'
  }

  /** The length of the run of non-quote characters at the front of `s`. */
  function QuoteFreeRun(s: string): (n: nat)
    ensures n <= |s| && forall i :: 0 <= i < n ==> !IsQuote(s[i])
    ensures n == |s| || IsQuote(s[n])
  {
    if s != [] && !IsQuote(s[0]) then 1 + QuoteFreeRun(s[1..]) else 0
  }

  lemma {:induction false} QuoteFreeRunOver(text: string, rest: string)
    requires forall i :: 0 <= i < |text| ==> !IsQuote(text[i])
    requires rest != [] && IsQuote(rest[0])
    ensures QuoteFreeRun(text + rest) == |text|
  {
    if text != [] {
      assert (text + rest)[1..] == text[1..] + rest;
      QuoteFreeRunOver(text[1..], rest);
    }
  }

  /** `['"]([^'"]+)['"]` at the front of `b`: the quoted text. */
  function QuotedText(b: string): (r: Option<string>)
    ensures r.Some? ==> r.value != [] && forall i :: 0 <= i < |r.value| ==> !IsQuote(r.value[i])
  {
    if b != [] && IsQuote(b[0]) then
      var n := QuoteFreeRun(b[1..]);
      if 0 < n < |b| - 1 then Some(b[1..][..n]) else None
    else None
  }

  /** Text between two quotes, of either kind, is what is captured. */
  lemma QuotedTextOf(open: char, text: string, close: char, after: string)
    requires IsQuote(open) && IsQuote(close)
    requires text != [] && forall i :: 0 <= i < |text| ==> !IsQuote(text[i])
    ensures QuotedText([open] + (text + ([close] + after))) == Some(text)
  {
    var quoted := text + ([close] + after);
    assert ([open] + quoted)[1..] == quoted;
    QuoteFreeRunOver(text, [close] + after);
    assert quoted[..|text|] == text;
  }

  /** `\s*=\s*['"]([^'"]+)['"]` at the front of `rest`: the quoted text. */
  function AssignedQuoted(rest: string): (r: Option<string>)
    ensures r.Some? ==> r.value != [] && forall i :: 0 <= i < |r.value| ==> !IsQuote(r.value[i])
  {
    var a := AccessPatterns.SkipSpaces(rest);
    if a != [] && a[0] == '=' then QuotedText(AccessPatterns.SkipSpaces(a[1..])) else None
  }

  /** An assignment of quoted text yields the text; either quote may close
      it. */
  lemma AssignedQuotedOf(gap1: string, gap2: string, open: char, text: string, close: char, after: string)
    requires forall i :: 0 <= i < |gap1| ==> IsPcreSpace(gap1[i])
    requires forall i :: 0 <= i < |gap2| ==> IsPcreSpace(gap2[i])
    requires IsQuote(open) && IsQuote(close)
    requires text != [] && forall i :: 0 <= i < |text| ==> !IsQuote(text[i])
    ensures AssignedQuoted(gap1 + ("=" + (gap2 + ([open] + (text + ([close] + after)))))) == Some(text)
  {
    var b := [open] + (text + ([close] + after));
    var assignment := "=" + (gap2 + b);
    assert AccessPatterns.SkipSpaces(gap1 + assignment) == assignment by {
      SkipSpacesOver(gap1, assignment);
    }
    assert AccessPatterns.SkipSpaces(assignment[1..]) == b by {
      assert assignment[1..] == gap2 + b;
      SkipSpacesOver(gap2, b);
    }
    QuotedTextOf(open, text, close, after);
  }

  /** The version a PrestaShop module's main file assigns: preg_match of
      `\$this->version\s*=\s*['"]([^'"]+)['"]` and its capture. */
  function ThisVersion(content: string): (r: Option<string>)
    ensures !Contains(content, "$this->version") ==> r.None?
    ensures r.Some? ==> r.value != [] && forall i :: 0 <= i < |r.value| ==> !IsQuote(r.value[i])
  {
    match MatchStart(content, "$this->version", AssignedQuoted, 0)
    case None => None
    case Some(k) => AssignedQuoted(content[k + |"$this->version"|..])
  }

  // ---------------------------------------------------------------------------
  // Moodle

  const MoodleTypes: seq<string> := ["local", "mod", "blocks", "theme", "report", "auth", "filter",
                                     "enrol", "assignsubmission", "assignfeedback"]

  /** What parseMoodleVersionFile finds in version.php. */
  datatype MoodleInfo = MoodleInfo(version: Option<string>, minimum: Option<string>)

  function ParseMoodleVersionFile(content: string): MoodleInfo {
    MoodleInfo(MoodleField(content, "version"), MoodleField(content, "requires"))
  }

  /** The plugin of type `kind` in directory `dir`: there is one exactly
      when the directory holds version.php. */
  function MoodleEntry(disk: Disk, kind: string, dir: string): Option<Plugin> {
    var versionFile := dir + "/version.php";
    if Exists(disk, versionFile) then
      var info := ParseMoodleVersionFile(Contents(disk, versionFile));
      var name := Basename(dir);
      Some(Plugin(kind, name, kind + "_" + name, Some(dir), Some(info.version.GetOr("unknown")),
                  info.minimum, None, true))
    else None
  }

  function MoodleEntryOf(disk: Disk, kind: string): string -> Option<Plugin> {
    dir => MoodleEntry(disk, kind, dir)
  }

  /** The plugins of one type, in glob order. */
  function MoodleType(disk: Disk, base: string, kind: string): seq<Plugin> {
    var typePath := base + "/" + kind;
    if IsDir(disk, typePath) then Pick(Glob(disk, typePath + "/*"), MoodleEntryOf(disk, kind)) else []
  }

  function MoodleTypeOf(disk: Disk, base: string): string -> seq<Plugin> {
    kind => MoodleType(disk, base, kind)
  }

  /** detectMoodlePlugins: the types in their fixed order. */
  function MoodlePlugins(disk: Disk, base: string): seq<Plugin> {
    FlatMap(MoodleTypes, MoodleTypeOf(disk, base))
  }

  method DetectMoodleDirs(disk: Disk, kind: string, dirs: seq<string>) returns (plugins: seq<Plugin>)
    ensures plugins == Pick(dirs, MoodleEntryOf(disk, kind))
  {
    plugins := [];
    for i := 0 to |dirs|
      invariant plugins == Pick(dirs[..i], MoodleEntryOf(disk, kind))
    {
      var dir := dirs[i];
      var versionFile := dir + "/version.php";
      TakeSnoc(dirs, i);
      PickSnoc(dirs[..i], dir, MoodleEntryOf(disk, kind));
      if Exists(disk, versionFile) {
        var info := ParseMoodleVersionFile(Contents(disk, versionFile));
        var name := Basename(dir);
        var plugin := Plugin(kind, name, kind + "_" + name, Some(dir),
                             Some(info.version.GetOr("unknown")), info.minimum, None, true);
        assert MoodleEntryOf(disk, kind)(dir) == Some(plugin);
        plugins := plugins + [plugin];
      } else {
        assert MoodleEntryOf(disk, kind)(dir) == None;
      }
    }
    TakeAll(dirs);
  }

  method DetectMoodlePlugins(disk: Disk, base: string) returns (plugins: seq<Plugin>)
    ensures plugins == MoodlePlugins(disk, base)
  {
    plugins := [];
    for t := 0 to |MoodleTypes|
      invariant plugins == FlatMap(MoodleTypes[..t], MoodleTypeOf(disk, base))
    {
      var kind := MoodleTypes[t];
      var typePath := base + "/" + kind;
      var found: seq<Plugin> := [];
      if IsDir(disk, typePath) {
        found := DetectMoodleDirs(disk, kind, Glob(disk, typePath + "/*"));
      }
      TakeSnoc(MoodleTypes, t);
      FlatMapSnoc(MoodleTypes[..t], kind, MoodleTypeOf(disk, base));
      plugins := plugins + found;
    }
    TakeAll(MoodleTypes);
  }

  /** A Moodle plugin is named "{type}_{name}" after a type of the fixed
      list and its directory, and has a version.php. */
  predicate MoodleShaped(disk: Disk, p: Plugin) {
    p.path.Some? && p.name == Basename(p.path.value) &&
    p.fullName == p.kind + "_" + p.name && Exists(disk, p.path.value + "/version.php") &&
    p.version.Some? && p.isCustom && p.vendor.None?
  }

  lemma MoodleEntryShaped(disk: Disk, kind: string, dir: string, p: Plugin)
    requires MoodleEntry(disk, kind, dir) == Some(p)
    ensures p.kind == kind && p.path == Some(dir) && MoodleShaped(disk, p)
  {
  }

  lemma MoodleRecords(disk: Disk, base: string)
    ensures forall p :: p in MoodlePlugins(disk, base) ==> p.kind in MoodleTypes && MoodleShaped(disk, p)
  {
    forall p | p in MoodlePlugins(disk, base)
      ensures p.kind in MoodleTypes && MoodleShaped(disk, p)
    {
      FlatMapMember(MoodleTypes, MoodleTypeOf(disk, base), p);
      var t :| 0 <= t < |MoodleTypes| && p in MoodleTypeOf(disk, base)(MoodleTypes[t]);
      var kind := MoodleTypes[t];
      var dirs := Glob(disk, base + "/" + kind + "/*");
      assert p in Pick(dirs, MoodleEntryOf(disk, kind));
      PickMember(dirs, MoodleEntryOf(disk, kind), p);
      var i :| 0 <= i < |dirs| && MoodleEntryOf(disk, kind)(dirs[i]) == Some(p);
      MoodleEntryShaped(disk, kind, dirs[i], p);
    }
  }

  /** The version is 'unknown' exactly when version.php assigns none. */
  lemma MoodleVersionDefault(disk: Disk, kind: string, dir: string)
    requires Exists(disk, dir + "/version.php")
    ensures MoodleEntry(disk, kind, dir).Some?
    ensures MoodleEntry(disk, kind, dir).value.version == Some("unknown")
            <==> MoodleField(Contents(disk, dir + "/version.php"), "version").None?
  {
    var content := Contents(disk, dir + "/version.php");
    if MoodleField(content, "version").Some? {
      assert !IsDigit("unknown"[0]);
    }
  }

  // ---------------------------------------------------------------------------
  // WordPress

  /** What a plugin or theme header names. */
  datatype HeaderInfo = HeaderInfo(name: Option<string>, version: Option<string>)

  /** parseWordPressPluginHeader */
  function PluginHeader(content: string): HeaderInfo {
    HeaderInfo(Header(content, "Plugin Name:"), Header(content, "Version:"))
  }

  /** parseWordPressThemeHeader */
  function ThemeHeader(content: string): HeaderInfo {
    HeaderInfo(Header(content, "Theme Name:"), Header(content, "Version:"))
  }

  /** `$info['name'] ?? $fallback`, where `$info` may be null. */
  function NameOr(info: Option<HeaderInfo>, fallback: string): string {
    if info.Some? && info.value.name.Some? then info.value.name.value else fallback
  }

  /** `$info['version'] ?? 'unknown'`, where `$info` may be null. */
  function VersionOr(info: Option<HeaderInfo>): string {
    if info.Some? && info.value.version.Some? then info.value.version.value else "unknown"
  }

  /** The header of the first of `files` whose first 8192 bytes mention
      'Plugin Name:'. */
  function PluginInfo(disk: Disk, files: seq<string>): (r: Option<HeaderInfo>)
    ensures r.Some? <==> exists i :: 0 <= i < |files| && Contains(Head(disk, files[i]), "Plugin Name:")
  {
    if files == [] then None
    else if Contains(Head(disk, files[0]), "Plugin Name:") then Some(PluginHeader(Head(disk, files[0])))
    else
      var r := PluginInfo(disk, files[1..]);
      assert forall i :: 1 <= i < |files| ==> files[1..][i - 1] == files[i];
      r
  }

  method FindPluginInfo(disk: Disk, files: seq<string>) returns (info: Option<HeaderInfo>)
    ensures info == PluginInfo(disk, files)
  {
    var i := 0;
    while i < |files|
      invariant i <= |files|
      invariant PluginInfo(disk, files[i..]) == PluginInfo(disk, files)
    {
      var content := Head(disk, files[i]);
      if Contains(content, "Plugin Name:") {
        return Some(PluginHeader(content));
      }
      assert files[i..][1..] == files[i + 1..];
      i := i + 1;
    }
    return None;
  }

  /** Plugin directories WordPress ships, which are not reported. */
  predicate IsBundledPlugin(name: string) {
    name == "akismet" || name == "hello"
  }

  function WordPressPlugin(disk: Disk, dir: string): Option<Plugin> {
    var name := Basename(dir);
    if IsBundledPlugin(name) then None
    else
      var info := PluginInfo(disk, Glob(disk, dir + "/*.php"));
      Some(Plugin("plugin", name, NameOr(info, name), Some(dir), Some(VersionOr(info)), None, None, true))
  }

  function WordPressPluginOf(disk: Disk): string -> Option<Plugin> {
    dir => WordPressPlugin(disk, dir)
  }

  const DefaultThemeYears: seq<string> := ["ten", "eleven", "twelve", "thirteen", "fourteen", "fifteen",
                                           "sixteen", "seventeen", "eighteen", "nineteen", "twenty",
                                           "twentyone", "twentytwo", "twentythree", "twentyfour"]

  /** What `$` leaves for the rest of the pattern: the name without one
      final line feed. */
  function Stem(name: string): (r: string)
    ensures name == r || name == r + "\n"
  {
    if name != [] && name[|name| - 1] == '\n' then name[..|name| - 1] else name
  }

  /** preg_match('/^twenty(ten|…|twentyfour)$/', $name) */
  predicate IsDefaultTheme(name: string) {
    StartsWith(Stem(name), "twenty") && Stem(name)[6..] in DefaultThemeYears
  }

  /** No year ends in a line feed. */
  lemma YearsEndInLetters(year: string)
    requires year in DefaultThemeYears
    ensures year != [] && year[|year| - 1] != '\n'
  {
  }

  /** A default theme's name is "twenty" and one of the years. */
  lemma DefaultThemeYear(name: string)
    requires IsDefaultTheme(name)
    ensures Stem(name) == "twenty" + Stem(name)[6..]
  {
  }

  /** "twenty" and one of the years, with or without a final line feed, is
      a default theme. */
  lemma YearDefaultTheme(name: string, year: string)
    requires year in DefaultThemeYears
    requires name == "twenty" + year || name == "twenty" + year + "\n"
    ensures IsDefaultTheme(name)
  {
    YearsEndInLetters(year);
    if name == "twenty" + year {
      assert name[|name| - 1] == year[|year| - 1];
    } else {
      assert name[..|name| - 1] == "twenty" + year;
    }
    assert Stem(name) == "twenty" + year;
    assert Stem(name)[..6] == "twenty" && Stem(name)[6..] == year;
  }

  /** The default themes are "twenty" and one of the years, with or
      without a final line feed. */
  lemma DefaultThemeNames(name: string)
    ensures IsDefaultTheme(name) <==>
            exists year :: year in DefaultThemeYears && (name == "twenty" + year || name == "twenty" + year + "\n")
  {
    if IsDefaultTheme(name) {
      DefaultThemeYear(name);
      var year := Stem(name)[6..];
      assert name == "twenty" + year || name == "twenty" + year + "\n";
    }
    if exists year :: year in DefaultThemeYears && (name == "twenty" + year || name == "twenty" + year + "\n") {
      var year :| year in DefaultThemeYears && (name == "twenty" + year || name == "twenty" + year + "\n");
      YearDefaultTheme(name, year);
    }
  }

  lemma DefaultThemeExamples()
    ensures IsDefaultTheme("twentytwentyfour") && IsDefaultTheme("twentyten\n")
    ensures !IsDefaultTheme("twentyfive") && !IsDefaultTheme("astra")
  {
    assert "twentytwentyfour"[6..] == "twentyfour";
    assert "twentyten\n"[..9][6..] == "ten";
    assert "twentyfive"[6..] == "five";
  }

  function WordPressTheme(disk: Disk, dir: string): Option<Plugin> {
    var name := Basename(dir);
    if IsDefaultTheme(name) then None
    else
      var styleFile := dir + "/style.css";
      var info := if Exists(disk, styleFile) then Some(ThemeHeader(Head(disk, styleFile))) else None;
      Some(Plugin("theme", name, NameOr(info, name), Some(dir), Some(VersionOr(info)), None, None, true))
  }

  function WordPressThemeOf(disk: Disk): string -> Option<Plugin> {
    dir => WordPressTheme(disk, dir)
  }

  /** detectWordPressPlugins: the plugins, then the themes; nothing at all,
      themes included, without a plugins directory. */
  function WordPressPlugins(disk: Disk, base: string): seq<Plugin> {
    var pluginsPath := base + "/wp-content/plugins";
    var themesPath := base + "/wp-content/themes";
    if !IsDir(disk, pluginsPath) then []
    else
      Pick(Glob(disk, pluginsPath + "/*"), WordPressPluginOf(disk)) +
      (if IsDir(disk, themesPath) then Pick(Glob(disk, themesPath + "/*"), WordPressThemeOf(disk)) else [])
  }

  method DetectPluginDirs(disk: Disk, dirs: seq<string>) returns (plugins: seq<Plugin>)
    ensures plugins == Pick(dirs, WordPressPluginOf(disk))
  {
    plugins := [];
    for i := 0 to |dirs|
      invariant plugins == Pick(dirs[..i], WordPressPluginOf(disk))
    {
      var dir := dirs[i];
      var name := Basename(dir);
      TakeSnoc(dirs, i);
      PickSnoc(dirs[..i], dir, WordPressPluginOf(disk));
      if !IsBundledPlugin(name) {
        var info := FindPluginInfo(disk, Glob(disk, dir + "/*.php"));
        plugins := plugins + [Plugin("plugin", name, NameOr(info, name), Some(dir), Some(VersionOr(info)),
                                     None, None, true)];
      }
    }
    TakeAll(dirs);
  }

  method DetectThemeDirs(disk: Disk, dirs: seq<string>) returns (plugins: seq<Plugin>)
    ensures plugins == Pick(dirs, WordPressThemeOf(disk))
  {
    plugins := [];
    for i := 0 to |dirs|
      invariant plugins == Pick(dirs[..i], WordPressThemeOf(disk))
    {
      var dir := dirs[i];
      var name := Basename(dir);
      TakeSnoc(dirs, i);
      PickSnoc(dirs[..i], dir, WordPressThemeOf(disk));
      if !IsDefaultTheme(name) {
        var styleFile := dir + "/style.css";
        var info: Option<HeaderInfo> := None;
        if Exists(disk, styleFile) {
          info := Some(ThemeHeader(Head(disk, styleFile)));
        }
        plugins := plugins + [Plugin("theme", name, NameOr(info, name), Some(dir), Some(VersionOr(info)),
                                     None, None, true)];
      }
    }
    TakeAll(dirs);
  }

  method DetectWordPressPlugins(disk: Disk, base: string) returns (plugins: seq<Plugin>)
    ensures plugins == WordPressPlugins(disk, base)
  {
    var pluginsPath := base + "/wp-content/plugins";
    if !IsDir(disk, pluginsPath) {
      return [];
    }
    plugins := DetectPluginDirs(disk, Glob(disk, pluginsPath + "/*"));
    var themesPath := base + "/wp-content/themes";
    if IsDir(disk, themesPath) {
      var themes := DetectThemeDirs(disk, Glob(disk, themesPath + "/*"));
      plugins := plugins + themes;
    }
  }

  /** Every reported plugin directory is one WordPress does not ship, and
      every reported theme is not a default one; each is named after its
      directory and every listed directory that is not skipped is
      reported. */
  lemma WordPressSkips(disk: Disk, base: string)
    ensures forall p :: p in WordPressPlugins(disk, base) ==>
              p.path.Some? && p.name == Basename(p.path.value) && p.isCustom && p.version.Some? &&
              ((p.kind == "plugin" && !IsBundledPlugin(p.name)) || (p.kind == "theme" && !IsDefaultTheme(p.name)))
    ensures IsDir(disk, base + "/wp-content/plugins") ==>
              forall dir :: dir in Glob(disk, base + "/wp-content/plugins/*") && !IsBundledPlugin(Basename(dir)) ==>
                WordPressPlugin(disk, dir).Some? && WordPressPlugin(disk, dir).value in WordPressPlugins(disk, base)
  {
    var pluginsPath := base + "/wp-content/plugins";
    var themesPath := base + "/wp-content/themes";
    assert pluginsPath + "/*" == base + "/wp-content/plugins/*";
    var plugins := Glob(disk, pluginsPath + "/*");
    var themes := Glob(disk, themesPath + "/*");
    forall p | p in WordPressPlugins(disk, base)
      ensures p.path.Some? && p.name == Basename(p.path.value) && p.isCustom && p.version.Some? &&
              ((p.kind == "plugin" && !IsBundledPlugin(p.name)) || (p.kind == "theme" && !IsDefaultTheme(p.name)))
    {
      if p in Pick(plugins, WordPressPluginOf(disk)) {
        PickMember(plugins, WordPressPluginOf(disk), p);
      } else {
        PickMember(themes, WordPressThemeOf(disk), p);
      }
    }
    if IsDir(disk, pluginsPath) {
      forall dir | dir in plugins && !IsBundledPlugin(Basename(dir))
        ensures WordPressPlugin(disk, dir).Some? && WordPressPlugin(disk, dir).value in WordPressPlugins(disk, base)
      {
        var i :| 0 <= i < |plugins| && plugins[i] == dir;
        PickMember(plugins, WordPressPluginOf(disk), WordPressPlugin(disk, dir).value);
      }
    }
  }

  /** With no header to read, a plugin or theme is named after its
      directory and its version is 'unknown'. */
  lemma WordPressDefaults(disk: Disk, dir: string)
    ensures !IsBundledPlugin(Basename(dir)) &&
            (forall file :: file in Glob(disk, dir + "/*.php") ==> !Contains(Head(disk, file), "Plugin Name:")) ==>
              WordPressPlugin(disk, dir) ==
                Some(Plugin("plugin", Basename(dir), Basename(dir), Some(dir), Some("unknown"), None, None, true))
    ensures !IsDefaultTheme(Basename(dir)) && !Exists(disk, dir + "/style.css") ==>
              WordPressTheme(disk, dir) ==
                Some(Plugin("theme", Basename(dir), Basename(dir), Some(dir), Some("unknown"), None, None, true))
  {
    var files := Glob(disk, dir + "/*.php");
    if forall file :: file in files ==> !Contains(Head(disk, file), "Plugin Name:") {
      assert forall i :: 0 <= i < |files| ==> files[i] in files;
    }
  }

  // ---------------------------------------------------------------------------
  // Magento

  function MagentoModule(vendorDir: string, moduleDir: string): Plugin {
    var vendor := Basename(vendorDir);
    var moduleName := Basename(moduleDir);
    Plugin("module", moduleName, vendor + "_" + moduleName, Some(moduleDir), None, None, Some(vendor), true)
  }

  function MagentoModuleOf(vendorDir: string): string -> Plugin {
    moduleDir => MagentoModule(vendorDir, moduleDir)
  }

  /** The modules of one vendor directory. */
  function MagentoVendor(disk: Disk, vendorDir: string): seq<Plugin> {
    Map(Glob(disk, vendorDir + "/*"), MagentoModuleOf(vendorDir))
  }

  function MagentoVendorOf(disk: Disk): string -> seq<Plugin> {
    vendorDir => MagentoVendor(disk, vendorDir)
  }

  /** The modules of one code pool. */
  function MagentoPool(disk: Disk, codePath: string): seq<Plugin> {
    if IsDir(disk, codePath) then FlatMap(Glob(disk, codePath + "/*"), MagentoVendorOf(disk)) else []
  }

  function MagentoPoolOf(disk: Disk): string -> seq<Plugin> {
    codePath => MagentoPool(disk, codePath)
  }

  /** The Magento 1 code pools, local before community. */
  function MagentoPools(base: string): seq<string> {
    [base + "/app/code/local", base + "/app/code/community"]
  }

  /** detectMagentoModules */
  function MagentoModules(disk: Disk, base: string): seq<Plugin> {
    FlatMap(MagentoPools(base), MagentoPoolOf(disk))
  }

  method DetectVendorModules(disk: Disk, vendorDir: string) returns (plugins: seq<Plugin>)
    ensures plugins == MagentoVendor(disk, vendorDir)
  {
    var modules := Glob(disk, vendorDir + "/*");
    plugins := [];
    for i := 0 to |modules|
      invariant plugins == Map(modules[..i], MagentoModuleOf(vendorDir))
    {
      var moduleDir := modules[i];
      var vendor := Basename(vendorDir);
      var moduleName := Basename(moduleDir);
      TakeSnoc(modules, i);
      MapSnoc(modules[..i], moduleDir, MagentoModuleOf(vendorDir));
      plugins := plugins + [Plugin("module", moduleName, vendor + "_" + moduleName, Some(moduleDir), None, None,
                                   Some(vendor), true)];
    }
    TakeAll(modules);
  }

  method DetectPoolModules(disk: Disk, codePath: string) returns (plugins: seq<Plugin>)
    ensures plugins == MagentoPool(disk, codePath)
  {
    if !IsDir(disk, codePath) {
      return [];
    }
    var vendors := Glob(disk, codePath + "/*");
    plugins := [];
    for i := 0 to |vendors|
      invariant plugins == FlatMap(vendors[..i], MagentoVendorOf(disk))
    {
      var found := DetectVendorModules(disk, vendors[i]);
      TakeSnoc(vendors, i);
      FlatMapSnoc(vendors[..i], vendors[i], MagentoVendorOf(disk));
      plugins := plugins + found;
    }
    TakeAll(vendors);
  }

  method DetectMagentoModules(disk: Disk, base: string) returns (plugins: seq<Plugin>)
    ensures plugins == MagentoModules(disk, base)
  {
    var pools := MagentoPools(base);
    plugins := [];
    for i := 0 to |pools|
      invariant plugins == FlatMap(pools[..i], MagentoPoolOf(disk))
    {
      var found := DetectPoolModules(disk, pools[i]);
      TakeSnoc(pools, i);
      FlatMapSnoc(pools[..i], pools[i], MagentoPoolOf(disk));
      plugins := plugins + found;
    }
    TakeAll(pools);
  }

  /** A Magento module is named "{vendor}_{module}" after its vendor
      directory and its own, and carries no version. */
  predicate MagentoShaped(p: Plugin) {
    p.kind == "module" && p.vendor.Some? && p.path.Some? && p.name == Basename(p.path.value) &&
    p.fullName == p.vendor.value + "_" + p.name && p.version.None? && p.isCustom
  }

  lemma MagentoVendorRecords(disk: Disk, vendorDir: string)
    ensures forall p :: p in MagentoVendor(disk, vendorDir) ==> MagentoShaped(p)
  {
    var modules := Glob(disk, vendorDir + "/*");
    forall p | p in MagentoVendor(disk, vendorDir)
      ensures MagentoShaped(p)
    {
      var k := MapWitness(modules, MagentoModuleOf(vendorDir), p);
      assert p == MagentoModule(vendorDir, modules[k]);
    }
  }

  lemma MagentoRecords(disk: Disk, base: string)
    ensures forall p :: p in MagentoModules(disk, base) ==> MagentoShaped(p)
  {
    forall p | p in MagentoModules(disk, base)
      ensures MagentoShaped(p)
    {
      FlatMapMember(MagentoPools(base), MagentoPoolOf(disk), p);
      var i :| 0 <= i < |MagentoPools(base)| && p in MagentoPoolOf(disk)(MagentoPools(base)[i]);
      var codePath := MagentoPools(base)[i];
      var vendors := Glob(disk, codePath + "/*");
      assert p in FlatMap(vendors, MagentoVendorOf(disk));
      FlatMapMember(vendors, MagentoVendorOf(disk), p);
      var j :| 0 <= j < |vendors| && p in MagentoVendorOf(disk)(vendors[j]);
      MagentoVendorRecords(disk, vendors[j]);
    }
  }

  // ---------------------------------------------------------------------------
  // PrestaShop

  /** A module's main file, "<dir>/<name>.php". */
  function PrestaShopMainFile(dir: string): string {
    dir + "/" + Basename(dir) + ".php"
  }

  /** The version the module's main file assigns, or 'unknown'. */
  function PrestaShopVersion(disk: Disk, dir: string): (r: string)
    ensures r != []
    ensures !Exists(disk, PrestaShopMainFile(dir)) ==> r == "unknown"
    ensures Exists(disk, PrestaShopMainFile(dir)) && ThisVersion(Head(disk, PrestaShopMainFile(dir))).Some? ==>
      r == ThisVersion(Head(disk, PrestaShopMainFile(dir))).value
    ensures Exists(disk, PrestaShopMainFile(dir)) && ThisVersion(Head(disk, PrestaShopMainFile(dir))).None? ==>
      r == "unknown"
  {
    var mainFile := PrestaShopMainFile(dir);
    if Exists(disk, mainFile) then ThisVersion(Head(disk, mainFile)).GetOr("unknown") else "unknown"
  }

  function PrestaShopModule(disk: Disk, dir: string): Plugin {
    var name := Basename(dir);
    Plugin("module", name, name, Some(dir), Some(PrestaShopVersion(disk, dir)), None, None, true)
  }

  function PrestaShopModuleOf(disk: Disk): string -> Plugin {
    dir => PrestaShopModule(disk, dir)
  }

  /** detectPrestaShopModules: every module directory, in glob order. */
  function PrestaShopModules(disk: Disk, base: string): seq<Plugin> {
    var modulesPath := base + "/modules";
    if IsDir(disk, modulesPath) then Map(Glob(disk, modulesPath + "/*"), PrestaShopModuleOf(disk)) else []
  }

  method DetectPrestaShopModules(disk: Disk, base: string) returns (plugins: seq<Plugin>)
    ensures plugins == PrestaShopModules(disk, base)
  {
    var modulesPath := base + "/modules";
    if !IsDir(disk, modulesPath) {
      return [];
    }
    var dirs := Glob(disk, modulesPath + "/*");
    plugins := [];
    for i := 0 to |dirs|
      invariant plugins == Map(dirs[..i], PrestaShopModuleOf(disk))
    {
      var dir := dirs[i];
      var name := Basename(dir);
      var mainFile := dir + "/" + name + ".php";
      var version := "unknown";
      if Exists(disk, mainFile) {
        var content := Head(disk, mainFile);
        var found := ThisVersion(content);
        if found.Some? {
          version := found.value;
        }
      }
      TakeSnoc(dirs, i);
      MapSnoc(dirs[..i], dir, PrestaShopModuleOf(disk));
      plugins := plugins + [Plugin("module", name, name, Some(dir), Some(version), None, None, true)];
    }
    TakeAll(dirs);
  }

  /** A PrestaShop module is named after its directory twice over; its
      version is what the head of its main file assigns to `$this->version`,
      and 'unknown' when the file is missing or assigns none. */
  predicate PrestaShopShaped(disk: Disk, p: Plugin) {
    p.kind == "module" && p.path.Some? && p.name == Basename(p.path.value) && p.fullName == p.name &&
    p.version.Some? && p.version.value != [] && p.isCustom &&
    (!Exists(disk, p.path.value + "/" + p.name + ".php") ==> p.version == Some("unknown")) &&
    (Exists(disk, p.path.value + "/" + p.name + ".php") ==>
       p.version == Some(ThisVersion(Head(disk, p.path.value + "/" + p.name + ".php")).GetOr("unknown")))
  }

  lemma PrestaShopRecords(disk: Disk, base: string)
    ensures forall p :: p in PrestaShopModules(disk, base) ==> PrestaShopShaped(disk, p)
  {
    var dirs := Glob(disk, base + "/modules" + "/*");
    forall p | p in PrestaShopModules(disk, base)
      ensures PrestaShopShaped(disk, p)
    {
      assert p in Map(dirs, PrestaShopModuleOf(disk));
      var i := MapWitness(dirs, PrestaShopModuleOf(disk), p);
      assert p == PrestaShopModule(disk, dirs[i]);
    }
  }

  // ---------------------------------------------------------------------------
  // Composer packages

  /** json_decode($content, true) when its result is truthy; None for
      invalid JSON and for a falsy document. */
  type Decoder = string -> Option<DependencyChecker.Composer>

  /** A package worth reporting: a vendor/name package that is not part of
      the Symfony or Laravel frameworks. */
  predicate IsThirdParty(package: string) {
    '/' in package && !StartsWith(package, "symfony/") && !StartsWith(package, "laravel/")
  }

  function PackageRecord(entry: (string, string)): Plugin {
    Plugin("package", entry.0, entry.0, None, Some(entry.1), None, None, false)
  }

  /** One entry of the merged require sections, through the two skips. */
  function ComposerPackage(entry: (string, string)): Option<Plugin> {
    if !Contains(entry.0, "/") then None
    else if StartsWith(entry.0, "symfony/") || StartsWith(entry.0, "laravel/") then None
    else Some(PackageRecord(entry))
  }

  /** strpos($s, '/') !== false is '/' in $s. */
  lemma ContainsSlash(s: string)
    ensures Contains(s, "/") <==> '/' in s
  {
    if '/' in s {
      var i :| 0 <= i < |s| && s[i] == '/';
      assert s[i..][..1] == "/";
      assert StartsWith(s[i..], "/");
    }
    if Contains(s, "/") {
      var k := IndexOfFrom(s, "/", 0).value;
      assert s[k..k + 1] == "/";
      assert s[k] == '/';
    }
  }

  /** detectComposerPackages */
  function ComposerPackages(disk: Disk, decode: Decoder, base: string): seq<Plugin> {
    var composerFile := base + "/composer.json";
    if !Exists(disk, composerFile) then []
    else match decode(Contents(disk, composerFile))
      case None => []
      case Some(data) => Pick(DependencyChecker.AllPackages(data), ComposerPackage)
  }

  method DetectComposerEntries(entries: seq<(string, string)>) returns (plugins: seq<Plugin>)
    ensures plugins == Pick(entries, ComposerPackage)
  {
    plugins := [];
    for i := 0 to |entries|
      invariant plugins == Pick(entries[..i], ComposerPackage)
    {
      var package := entries[i].0;
      TakeSnoc(entries, i);
      PickSnoc(entries[..i], entries[i], ComposerPackage);
      if Contains(package, "/") && !StartsWith(package, "symfony/") && !StartsWith(package, "laravel/") {
        plugins := plugins + [Plugin("package", package, package, None, Some(entries[i].1), None, None, false)];
      }
    }
    TakeAll(entries);
  }

  method DetectComposerPackages(disk: Disk, decode: Decoder, base: string) returns (plugins: seq<Plugin>)
    ensures plugins == ComposerPackages(disk, decode, base)
  {
    var composerFile := base + "/composer.json";
    if !Exists(disk, composerFile) {
      return [];
    }
    var data := decode(Contents(disk, composerFile));
    if data.None? {
      return [];
    }
    plugins := DetectComposerEntries(DependencyChecker.AllPackages(data.value));
  }

  /** The packages reported are exactly the third-party entries, each as
      a non-custom 'package' record. */
  lemma ComposerKeeps(entries: seq<(string, string)>)
    ensures forall p :: p in Pick(entries, ComposerPackage) <==>
              exists i :: 0 <= i < |entries| && IsThirdParty(entries[i].0) && p == PackageRecord(entries[i])
  {
    forall p
      ensures p in Pick(entries, ComposerPackage) <==>
              exists i :: 0 <= i < |entries| && IsThirdParty(entries[i].0) && p == PackageRecord(entries[i])
    {
      PickMember(entries, ComposerPackage, p);
      forall i | 0 <= i < |entries|
        ensures ComposerPackage(entries[i]) == Some(p) <==> IsThirdParty(entries[i].0) && p == PackageRecord(entries[i])
      {
        ContainsSlash(entries[i].0);
      }
    }
  }

  // ---------------------------------------------------------------------------
  // Dispatch

  /** detect: the detector the platform names; an unknown platform finds
      nothing.  What is found is custom exactly when it does not come from
      composer.json. */
  function Detected(disk: Disk, decode: Decoder, base: string, platform: string): (r: seq<Plugin>)
    ensures forall p :: p in r ==> (p.isCustom <==> platform != "symfony" && platform != "laravel")
  {
    if platform == "moodle" then MoodleRecords(disk, base); MoodlePlugins(disk, base)
    else if platform == "wordpress" then WordPressSkips(disk, base); WordPressPlugins(disk, base)
    else if platform == "magento" then MagentoRecords(disk, base); MagentoModules(disk, base)
    else if platform == "prestashop" then PrestaShopRecords(disk, base); PrestaShopModules(disk, base)
    else if platform == "symfony" || platform == "laravel" then
      ComposerNotCustom(disk, decode, base);
      ComposerPackages(disk, decode, base)
    else []
  }

  /** Composer packages are never custom. */
  lemma ComposerNotCustom(disk: Disk, decode: Decoder, base: string)
    ensures forall p :: p in ComposerPackages(disk, decode, base) ==> !p.isCustom
  {
    var composerFile := base + "/composer.json";
    if Exists(disk, composerFile) && decode(Contents(disk, composerFile)).Some? {
      ComposerKeeps(DependencyChecker.AllPackages(decode(Contents(disk, composerFile)).value));
    }
  }

  method Detect(disk: Disk, decode: Decoder, base: string, platform: string) returns (plugins: seq<Plugin>)
    ensures plugins == Detected(disk, decode, base, platform)
  {
    if platform == "moodle" {
      plugins := DetectMoodlePlugins(disk, base);
    } else if platform == "wordpress" {
      plugins := DetectWordPressPlugins(disk, base);
    } else if platform == "magento" {
      plugins := DetectMagentoModules(disk, base);
    } else if platform == "prestashop" {
      plugins := DetectPrestaShopModules(disk, base);
    } else if platform == "symfony" || platform == "laravel" {
      plugins := DetectComposerPackages(disk, decode, base);
    } else {
      plugins := [];
    }
  }

  /** Symfony and Laravel share composer detection, and an unknown platform
      finds nothing. */
  lemma DetectedKinds(disk: Disk, decode: Decoder, base: string, platform: string)
    ensures Detected(disk, decode, base, "symfony") == Detected(disk, decode, base, "laravel")
    ensures platform !in {"moodle", "wordpress", "magento", "prestashop", "symfony", "laravel"} ==>
              Detected(disk, decode, base, platform) == []
  {
  }
}
