/** The code scanner (src/Analyzer/CodeScanner.php): the totals of a scan
    and the statistics of a list of scanned files. */
module CodeScanner {
  import opened Wrappers
  import opened Text
  import opened Seqs
  import opened Sorting
  import Rules
  import FileScanner

  type FileRecord = FileScanner.FileRecord

  function SumSizes(files: seq<FileRecord>): nat {
    if files == [] then 0 else SumSizes(files[..|files| - 1]) + files[|files| - 1].size
  }

  /** The scan result, without its duration. */
  datatype ScanResult = ScanResult(basePath: string, additionalPaths: seq<string>, files: seq<FileRecord>,
                                   total: nat, totalSize: nat)

  /** scan: the scanner's files with their count and total size. */
  method Scan(settings: FileScanner.Settings, basePath: string, additional: seq<string>, excludes: seq<string>,
              fs: FileScanner.Listing, matcher: Rules.Matcher)
    returns (result: ScanResult)
    ensures result.files == FileScanner.ScanFiles(settings, basePath, additional, excludes, fs, matcher)
    ensures result.total == |result.files| && result.totalSize == SumSizes(result.files)
    ensures result.basePath == basePath && result.additionalPaths == additional
  {
    var files := FileScanner.Scan(settings, basePath, additional, excludes, fs, matcher);
    var totalSize := 0;
    for i := 0 to |files|
      invariant totalSize == SumSizes(files[..i])
    {
      TakeSnoc(files, i);
      totalSize := totalSize + files[i].size;
    }
    TakeAll(files);
    result := ScanResult(basePath, additional, files, |files|, totalSize);
  }

  // ---------------------------------------------------------------------------
  // getFileStatistics

  /** 'by_extension': extension, count, size, in order of first appearance. */
  type ExtTally = seq<(string, nat, nat)>

  /** One more file of extension `ext` and size `size`. */
  function ExtBump(t: ExtTally, ext: string, size: nat): ExtTally {
    if t == [] then [(ext, 1, size)]
    else if t[0].0 == ext then [(ext, t[0].1 + 1, t[0].2 + size)] + t[1..]
    else [t[0]] + ExtBump(t[1..], ext, size)
  }

  function ExtCount(t: ExtTally): nat {
    if t == [] then 0 else t[0].1 + ExtCount(t[1..])
  }

  function ExtSize(t: ExtTally): nat {
    if t == [] then 0 else t[0].2 + ExtSize(t[1..])
  }

  /** The entry for `ext`, when there is one. */
  function ExtEntry(t: ExtTally, ext: string): Option<(nat, nat)> {
    if t == [] then None
    else if t[0].0 == ext then Some((t[0].1, t[0].2))
    else ExtEntry(t[1..], ext)
  }

  lemma {:induction false} ExtBumpTotals(t: ExtTally, ext: string, size: nat)
    ensures ExtCount(ExtBump(t, ext, size)) == ExtCount(t) + 1
    ensures ExtSize(ExtBump(t, ext, size)) == ExtSize(t) + size
  {
    if t != [] && t[0].0 != ext {
      ExtBumpTotals(t[1..], ext, size);
      assert ExtBump(t, ext, size)[1..] == ExtBump(t[1..], ext, size);
    } else if t != [] {
      assert ExtBump(t, ext, size)[1..] == t[1..];
    }
  }

  lemma {:induction false} ExtBumpEntry(t: ExtTally, ext: string, size: nat, other: string)
    ensures ExtEntry(ExtBump(t, ext, size), other) ==
      if other == ext then Some(match ExtEntry(t, ext) case None => (1, size) case Some(e) => (e.0 + 1, e.1 + size))
      else ExtEntry(t, other)
  {
    if t != [] && t[0].0 != ext {
      ExtBumpEntry(t[1..], ext, size, other);
      assert ExtBump(t, ext, size)[1..] == ExtBump(t[1..], ext, size);
    } else if t != [] {
      assert ExtBump(t, ext, size)[1..] == t[1..];
    }
  }

  function ExtTallyOf(files: seq<FileRecord>): ExtTally {
    if files == [] then []
    else
      var f := files[|files| - 1];
      ExtBump(ExtTallyOf(files[..|files| - 1]), Extension(f.path), f.size)
  }

  /** The comparator of the largest-files sort: larger files first. */
  predicate BySizeDesc(a: FileRecord, b: FileRecord) {
    a.size >= b.size
  }

  lemma BySizeDescOrders()
    ensures Total(BySizeDesc) && Transitive(BySizeDesc)
  {
  }

  /** The ten largest files: the files sorted by decreasing size, stably,
      and cut after ten. */
  function Largest(files: seq<FileRecord>): seq<FileRecord> {
    var sorted := SortBy(files, BySizeDesc);
    sorted[..if |sorted| < 10 then |sorted| else 10]
  }

  datatype Statistics = Statistics(totalFiles: nat, totalSize: nat, byExtension: ExtTally, largestFiles: seq<FileRecord>)

  function StatisticsOf(files: seq<FileRecord>): Statistics {
    Statistics(|files|, SumSizes(files), ExtTallyOf(files), Largest(files))
  }

  /** getFileStatistics */
  method GetFileStatistics(files: seq<FileRecord>) returns (stats: Statistics)
    ensures stats == StatisticsOf(files)
  {
    var totalSize := 0;
    var byExtension: ExtTally := [];
    for i := 0 to |files|
      invariant totalSize == SumSizes(files[..i])
      invariant byExtension == ExtTallyOf(files[..i])
    {
      TakeSnoc(files, i);
      totalSize := totalSize + files[i].size;
      var ext := Extension(files[i].path);
      byExtension := ExtBump(byExtension, ext, files[i].size);
    }
    TakeAll(files);
    var sorted := SortBy(files, BySizeDesc);
    var largest := sorted[..if |sorted| < 10 then |sorted| else 10];
    stats := Statistics(|files|, totalSize, byExtension, largest);
  }

  /** The per-extension counts add up to the number of files and the
      per-extension sizes to the total size. */
  lemma {:induction false} ByExtensionSums(files: seq<FileRecord>)
    ensures ExtCount(ExtTallyOf(files)) == |files|
    ensures ExtSize(ExtTallyOf(files)) == SumSizes(files)
  {
    if files != [] {
      var f := files[|files| - 1];
      ByExtensionSums(files[..|files| - 1]);
      ExtBumpTotals(ExtTallyOf(files[..|files| - 1]), Extension(f.path), f.size);
    }
  }

  function CountExt(files: seq<FileRecord>, ext: string): nat {
    if files == [] then 0
    else CountExt(files[..|files| - 1], ext) + (if Extension(files[|files| - 1].path) == ext then 1 else 0)
  }

  /** The entry of an extension counts exactly the files with that
      extension; an extension no file has gets no entry. */
  lemma {:induction false} ByExtensionCounts(files: seq<FileRecord>, ext: string)
    ensures CountExt(files, ext) == 0 <==> ExtEntry(ExtTallyOf(files), ext).None?
    ensures CountExt(files, ext) > 0 ==> ExtEntry(ExtTallyOf(files), ext).value.0 == CountExt(files, ext)
  {
    if files != [] {
      var f := files[|files| - 1];
      ByExtensionCounts(files[..|files| - 1], ext);
      ExtBumpEntry(ExtTallyOf(files[..|files| - 1]), Extension(f.path), f.size, ext);
    }
  }

  /** largest_files has at most ten entries, all from the input and no more
      often than there, in non-increasing size order. */
  lemma LargestShape(files: seq<FileRecord>)
    ensures |Largest(files)| <= 10 && |Largest(files)| == if |files| < 10 then |files| else 10
    ensures multiset(Largest(files)) <= multiset(files)
    ensures forall i, j :: 0 <= i < j < |Largest(files)| ==> Largest(files)[i].size >= Largest(files)[j].size
  {
    var sorted := SortBy(files, BySizeDesc);
    BySizeDescOrders();
    SortBySorted(files, BySizeDesc);
    var n := if |sorted| < 10 then |sorted| else 10;
    assert sorted == sorted[..n] + sorted[n..];
    assert multiset(sorted) == multiset(sorted[..n]) + multiset(sorted[n..]);
  }

  /** No file left out of largest_files is larger than the smallest one kept. */
  lemma LargestAreLargest(files: seq<FileRecord>)
    ensures forall i, j :: 0 <= i < |Largest(files)| <= j < |SortBy(files, BySizeDesc)| ==>
      SortBy(files, BySizeDesc)[j].size <= Largest(files)[i].size
  {
    BySizeDescOrders();
    SortBySorted(files, BySizeDesc);
  }

  /** The statistics' total size is the scan's total size. */
  lemma StatisticsAgreeWithScan(result: ScanResult)
    requires result.total == |result.files| && result.totalSize == SumSizes(result.files)
    ensures StatisticsOf(result.files).totalFiles == result.total
    ensures StatisticsOf(result.files).totalSize == result.totalSize
    ensures ExtSize(StatisticsOf(result.files).byExtension) == result.totalSize
  {
    ByExtensionSums(result.files);
  }
}
