/** The file scanner (src/Utils/FileScanner.php): which files of a directory
    tree are analysed, the glob exclusion patterns, and the path records it
    hands on.  The recursive directory walk is an input: `Listing` gives, for
    a directory path, its entries in the walk's order (None when the path is
    not a directory). */
module FileScanner {
  import opened Wrappers
  import opened Text
  import opened Seqs
  import Rules

  /** One entry of the recursive walk of a directory. */
  datatype DirEntry = DirEntry(pathname: string, isFile: bool, size: nat, mtime: int, hash: string)

  type Listing = string -> Option<seq<DirEntry>>

  /** The record scanDirectory keeps for a file. */
  datatype FileRecord = FileRecord(path: string, relativePath: string, size: nat, modified: int, hash: string)

  /** 'analysis.exclude_patterns' (default none), 'analysis.file_extensions'
      (default php) and 'analysis.max_file_size' (default 5 MiB). */
  datatype Settings = Settings(excludePatterns: seq<string>, fileExtensions: seq<string>, maxFileSize: int)

  const DefaultSettings: Settings := Settings([], ["php"], 5242880)

  // ---------------------------------------------------------------------------
  // globToRegex

  /** str_replace of one character by a string, character by character. */
  function MapChar(s: string, x: char, r: string): string {
    if s == [] then [] else (if s[0] == x then r else [s[0]]) + MapChar(s[1..], x, r)
  }

  lemma {:induction false} MapCharAppend(a: string, b: string, x: char, r: string)
    ensures MapChar(a + b, x, r) == MapChar(a, x, r) + MapChar(b, x, r)
  {
    if a != [] {
      assert (a + b)[1..] == a[1..] + b;
      MapCharAppend(a[1..], b, x, r);
    } else {
      assert a + b == b;
    }
  }

  /** Replacing a one-character needle is that character map. */
  lemma {:induction false} ReplaceOneChar(s: string, x: char, r: string)
    ensures ReplaceAll(s, [x], r) == MapChar(s, x, r)
  {
    if s != [] {
      ReplaceOneChar(s[1..], x, r);
      assert StartsWith(s, [x]) <==> s[0] == x;
    }
  }

  /** What one glob character stands for in the regular expression. */
  function GlobChar(c: char): string {
    if c == '/' then "\\/" else if c == '*' then ".*" else if c == '?' then "." else [c]
  }

  function GlobBody(p: string): string {
    if p == [] then "" else GlobChar(p[0]) + GlobBody(p[1..])
  }

  /** globToRegex */
  function GlobToRegex(pattern: string): string {
    var p1 := ReplaceAll(pattern, "/", "\\/");
    var p2 := ReplaceAll(p1, "*", ".*");
    var p3 := ReplaceAll(p2, "?", ".");
    "/^" + p3 + "$/i"
  }

  /** The three replacements never see each other's output: '/' becomes
      "\/", '*' becomes ".*", '?' becomes "." and every other character is
      kept, and the whole is anchored at both ends and case-insensitive. */
  lemma GlobToRegexCharwise(pattern: string)
    ensures GlobToRegex(pattern) == "/^" + GlobBody(pattern) + "$/i"
  {
    ReplaceOneChar(pattern, '/', "\\/");
    ReplaceOneChar(MapChar(pattern, '/', "\\/"), '*', ".*");
    ReplaceOneChar(MapChar(MapChar(pattern, '/', "\\/"), '*', ".*"), '?', ".");
    GlobStages(pattern);
  }

  lemma {:induction false} GlobStages(p: string)
    ensures MapChar(MapChar(MapChar(p, '/', "\\/"), '*', ".*"), '?', ".") == GlobBody(p)
  {
    if p != [] {
      GlobStages(p[1..]);
      var h := if p[0] == '/' then "\\/" else [p[0]];
      var t1 := MapChar(p[1..], '/', "\\/");
      assert MapChar(p, '/', "\\/") == h + t1;
      MapCharAppend(h, t1, '*', ".*");
      var h2 := MapChar(h, '*', ".*");
      var t2 := MapChar(t1, '*', ".*");
      MapCharAppend(h2, t2, '?', ".");
      if p[0] == '/' {
        assert h2 == "\\/";
      } else if p[0] == '*' {
        assert h2 == ".*";
      } else {
        assert h2 == [p[0]];
      }
    }
  }

  // ---------------------------------------------------------------------------
  // shouldExclude

  /** `preg_match($regex, $path)` for the regex of one glob. */
  predicate GlobMatches(pattern: string, path: string, matcher: Rules.Matcher) {
    |matcher(GlobToRegex(pattern), path)| > 0
  }

  predicate Excluded(excludes: seq<string>, path: string, matcher: Rules.Matcher) {
    exists i :: 0 <= i < |excludes| && GlobMatches(excludes[i], path, matcher)
  }

  /** shouldExclude: true as soon as one pattern matches. */
  method ShouldExclude(path: string, excludes: seq<string>, matcher: Rules.Matcher) returns (r: bool)
    ensures r <==> Excluded(excludes, path, matcher)
  {
    for i := 0 to |excludes|
      invariant forall j :: 0 <= j < i ==> !GlobMatches(excludes[j], path, matcher)
    {
      var regex := GlobToRegex(excludes[i]);
      if |matcher(regex, path)| > 0 {
        return true;
      }
    }
    return false;
  }

  // ---------------------------------------------------------------------------
  // The per-file filter and relative_path

  /** `in_array(strtolower($ext), $this->fileExtensions)`, loose comparison. */
  predicate ExtensionListed(settings: Settings, pathname: string) {
    exists i :: 0 <= i < |settings.fileExtensions| && LooseEquals(LowerStr(Extension(pathname)), settings.fileExtensions[i])
  }

  /** A walk entry is kept when it is a file, no pattern excludes it, its
      extension is listed and it is not larger than the maximum. */
  predicate Kept(settings: Settings, excludes: seq<string>, e: DirEntry, matcher: Rules.Matcher) {
    e.isFile && !Excluded(excludes, e.pathname, matcher) && ExtensionListed(settings, e.pathname) &&
    e.size <= settings.maxFileSize
  }

  /** `str_replace($directory . '/', '', $filePath)`: every occurrence of the
      directory followed by '/' is removed, wherever it is. */
  function RelativePathAsWritten(directory: string, path: string): string {
    ReplaceAll(path, directory + "/", "")
  }

  /** The path below the directory: the leading directory and '/' removed,
      and nothing else. */
  function RelativePath(directory: string, path: string): (r: string)
    ensures StartsWith(path, directory + "/") ==> directory + "/" + r == path
    ensures !StartsWith(path, directory + "/") ==> r == path
  {
    if StartsWith(path, directory + "/") then path[|directory| + 1..] else path
  }

  /** Where the directory does not recur below itself, both agree. */
  lemma RelativePathsAgree(directory: string, rest: string)
    requires forall j :: 0 <= j <= |rest| ==> !StartsWith(rest[j..], directory + "/")
    ensures RelativePathAsWritten(directory, directory + "/" + rest) == rest
    ensures RelativePath(directory, directory + "/" + rest) == rest
  {
    var path := directory + "/" + rest;
    var needle := directory + "/";
    assert StartsWith(path, needle);
    assert path[|needle|..] == rest;
    ReplaceAllNoOccurrence(rest, needle, "");
  }

  /** A directory that recurs below itself: scanning "src" and meeting
      "src/lib/src/a.php" (d = "src", mid = "lib/", tail = "a.php"), the
      source's relative path drops the inner "src/" as well and differs from
      the path below the directory. */
  lemma RelativePathRecurringDirectory(d: string, mid: string, tail: string)
    requires d != [] && d[0] !in mid && d[0] !in tail
    ensures RelativePathAsWritten(d, d + "/" + mid + d + "/" + tail) == mid + tail
    ensures RelativePath(d, d + "/" + mid + d + "/" + tail) == mid + d + "/" + tail
    ensures RelativePathAsWritten(d, d + "/" + mid + d + "/" + tail) != RelativePath(d, d + "/" + mid + d + "/" + tail)
  {
    var needle := d + "/";
    var path := d + "/" + mid + d + "/" + tail;
    assert path == needle + (mid + (needle + tail));
    ReplaceAllLeading(needle, mid + (needle + tail), "");
    ReplaceAllSkip(mid, needle + tail, needle, "");
    ReplaceAllLeading(needle, tail, "");
    ReplaceAllAbsent(tail, needle, "");
    assert StartsWith(path, needle);
    assert path[|d| + 1..] == mid + d + "/" + tail;
  }

  /** A subject that starts with the needle loses that occurrence first. */
  lemma ReplaceAllLeading(needle: string, rest: string, repl: string)
    requires needle != []
    ensures ReplaceAll(needle + rest, needle, repl) == repl + ReplaceAll(rest, needle, repl)
  {
    assert StartsWith(needle + rest, needle);
    assert (needle + rest)[|needle|..] == rest;
  }

  /** One file of the walk: its path, its path with every "directory/"
      removed, its size, modification time and hash. */
  function Record(directory: string, e: DirEntry): (r: FileRecord)
    ensures r.path == e.pathname && r.size == e.size && r.modified == e.mtime && r.hash == e.hash
    ensures r.relativePath == RelativePathAsWritten(directory, e.pathname)
  {
    FileRecord(e.pathname, RelativePathAsWritten(directory, e.pathname), e.size, e.mtime, e.hash)
  }

  /** The records scanDirectory keeps from the walk of `directory` (already
      stripped of trailing '/'), in walk order. */
  function DirRecords(settings: Settings, directory: string, entries: seq<DirEntry>, excludes: seq<string>,
                      matcher: Rules.Matcher): seq<FileRecord>
  {
    if entries == [] then []
    else
      var last := entries[|entries| - 1];
      DirRecords(settings, directory, entries[..|entries| - 1], excludes, matcher) +
      (if Kept(settings, excludes, last, matcher) then [Record(directory, last)] else [])
  }

  /** The records are exactly those of the kept entries. */
  lemma {:induction false} DirRecordsKept(settings: Settings, directory: string, entries: seq<DirEntry>,
                                          excludes: seq<string>, matcher: Rules.Matcher)
    ensures forall r :: r in DirRecords(settings, directory, entries, excludes, matcher) <==>
      exists e :: e in entries && Kept(settings, excludes, e, matcher) && r == Record(directory, e)
  {
    if entries != [] {
      var front := entries[..|entries| - 1];
      var last := entries[|entries| - 1];
      DirRecordsKept(settings, directory, front, excludes, matcher);
      assert entries == front + [last];
      forall r | r in DirRecords(settings, directory, entries, excludes, matcher)
        ensures exists e :: e in entries && Kept(settings, excludes, e, matcher) && r == Record(directory, e)
      {
        if r !in DirRecords(settings, directory, front, excludes, matcher) {
          assert r == Record(directory, last);
        } else {
          var e :| e in front && Kept(settings, excludes, e, matcher) && r == Record(directory, e);
          assert e in entries;
        }
      }
    }
  }

  /** What scanDirectory returns. */
  function DirectoryFiles(settings: Settings, directory: string, excludes: seq<string>, fs: Listing,
                          matcher: Rules.Matcher): seq<FileRecord>
  {
    var dir := RTrimChar(directory, '/');
    match fs(dir)
    case None => []
    case Some(entries) => DirRecords(settings, dir, entries, excludes, matcher)
  }

  /** scanDirectory */
  method ScanDirectory(settings: Settings, directory: string, excludes: seq<string>, fs: Listing,
                       matcher: Rules.Matcher)
    returns (files: seq<FileRecord>)
    ensures files == DirectoryFiles(settings, directory, excludes, fs, matcher)
  {
    files := [];
    var dir := RTrimChar(directory, '/');
    if fs(dir).None? {
      return;
    }
    var entries := fs(dir).value;
    for i := 0 to |entries|
      invariant files == DirRecords(settings, dir, entries[..i], excludes, matcher)
    {
      TakeSnoc(entries, i);
      var e := entries[i];
      if !e.isFile {
        continue;
      }
      var excluded := ShouldExclude(e.pathname, excludes, matcher);
      if excluded {
        continue;
      }
      var extension := LowerStr(Extension(e.pathname));
      if !(exists j :: 0 <= j < |settings.fileExtensions| && LooseEquals(extension, settings.fileExtensions[j])) {
        continue;
      }
      if e.size > settings.maxFileSize {
        continue;
      }
      files := files + [Record(dir, e)];
    }
    TakeAll(entries);
  }

  // ---------------------------------------------------------------------------
  // scan

  /** `$path . '/' . trim($additionalPath, '/')` */
  function AdditionalPath(path: string, additional: string): string {
    path + "/" + TrimChar(additional, '/')
  }

  /** The files of the additional paths that are directories, in order. */
  function AdditionalFiles(settings: Settings, path: string, additional: seq<string>, excludes: seq<string>,
                           fs: Listing, matcher: Rules.Matcher): seq<FileRecord>
  {
    if additional == [] then []
    else
      var full := AdditionalPath(path, additional[|additional| - 1]);
      AdditionalFiles(settings, path, additional[..|additional| - 1], excludes, fs, matcher) +
      (if fs(full).Some? then DirectoryFiles(settings, full, excludes, fs, matcher) else [])
  }

  /** One more additional path adds its directory's files, when it is a directory. */
  lemma AdditionalStep(settings: Settings, path: string, additional: seq<string>, i: nat, excludes: seq<string>,
                       fs: Listing, matcher: Rules.Matcher)
    requires i < |additional|
    ensures var full := path + "/" + TrimChar(additional[i], '/');
      AdditionalFiles(settings, path, additional[..i + 1], excludes, fs, matcher) ==
      AdditionalFiles(settings, path, additional[..i], excludes, fs, matcher) +
      (if fs(full).Some? then DirectoryFiles(settings, full, excludes, fs, matcher) else [])
  {
    assert additional[..i + 1][..i] == additional[..i];
  }

  /** What scan returns: the main path's files first, then those of each
      additional path, with the configured patterns followed by the custom
      ones as exclusions. */
  function ScanFiles(settings: Settings, path: string, additional: seq<string>, customExcludes: seq<string>,
                     fs: Listing, matcher: Rules.Matcher): seq<FileRecord>
  {
    var excludes := settings.excludePatterns + customExcludes;
    DirectoryFiles(settings, path, excludes, fs, matcher) + AdditionalFiles(settings, path, additional, excludes, fs, matcher)
  }

  /** A custom pattern excludes a file exactly as a configured one does. */
  lemma CustomExcludesAdd(settings: Settings, custom: seq<string>, path: string, matcher: Rules.Matcher)
    ensures Excluded(settings.excludePatterns + custom, path, matcher) <==>
      Excluded(settings.excludePatterns, path, matcher) || Excluded(custom, path, matcher)
  {
    var all := settings.excludePatterns + custom;
    var n := |settings.excludePatterns|;
    if Excluded(settings.excludePatterns, path, matcher) {
      var i :| 0 <= i < n && GlobMatches(settings.excludePatterns[i], path, matcher);
      assert all[i] == settings.excludePatterns[i];
    }
    if Excluded(all, path, matcher) {
      var i :| 0 <= i < |all| && GlobMatches(all[i], path, matcher);
      if i >= n {
        assert all[i] == custom[i - n];
      }
    }
    if Excluded(custom, path, matcher) {
      var i :| 0 <= i < |custom| && GlobMatches(custom[i], path, matcher);
      assert all[n + i] == custom[i];
    }
  }

  /** Every file scan returns passed the filter. */
  lemma ScanFilesKept(settings: Settings, path: string, additional: seq<string>, customExcludes: seq<string>,
                      fs: Listing, matcher: Rules.Matcher, r: FileRecord)
    requires r in DirectoryFiles(settings, path, settings.excludePatterns + customExcludes, fs, matcher)
    ensures exists e :: Kept(settings, settings.excludePatterns + customExcludes, e, matcher) && r == Record(RTrimChar(path, '/'), e)
  {
    var dir := RTrimChar(path, '/');
    DirRecordsKept(settings, dir, fs(dir).value, settings.excludePatterns + customExcludes, matcher);
  }

  /** scan */
  method Scan(settings: Settings, path: string, additional: seq<string>, customExcludes: seq<string>,
              fs: Listing, matcher: Rules.Matcher)
    returns (files: seq<FileRecord>)
    ensures files == ScanFiles(settings, path, additional, customExcludes, fs, matcher)
  {
    var excludes := settings.excludePatterns + customExcludes;
    var main := ScanDirectory(settings, path, excludes, fs, matcher);
    var more := ScanAdditional(settings, path, additional, excludes, fs, matcher);
    files := main + more;
  }

  /** The loop of scan over the additional paths. */
  method ScanAdditional(settings: Settings, path: string, additional: seq<string>, excludes: seq<string>,
                        fs: Listing, matcher: Rules.Matcher)
    returns (files: seq<FileRecord>)
    ensures files == AdditionalFiles(settings, path, additional, excludes, fs, matcher)
  {
    files := [];
    for i := 0 to |additional|
      invariant files == AdditionalFiles(settings, path, additional[..i], excludes, fs, matcher)
    {
      var full := path + "/" + TrimChar(additional[i], '/');
      AdditionalStep(settings, path, additional, i, excludes, fs, matcher);
      if fs(full).Some? {
        var more := ScanDirectory(settings, full, excludes, fs, matcher);
        files := files + more;
      }
    }
    TakeAll(additional);
  }
}
