/** The composer dependency checker (src/Analyzer/DependencyChecker.php):
    the packages of composer.json's require and require-dev sections and
    the issues their version constraints raise. */
module DependencyChecker {
  import opened Wrappers
  import opened Text
  import opened Seqs

  // ---------------------------------------------------------------------------
  // Ordered PHP arrays of package name => constraint

  /** A decoded JSON object: its entries in document order. */
  type Assoc = seq<(string, string)>

  /** The keys of an object. */
  function KeySet(a: Assoc): set<string> {
    if a == [] then {} else {a[0].0} + KeySet(a[1..])
  }

  lemma {:induction false} KeySetAt(a: Assoc, i: nat)
    requires i < |a|
    ensures a[i].0 in KeySet(a)
  {
    if i > 0 {
      KeySetAt(a[1..], i - 1);
    }
  }

  lemma {:induction false} KeySetWitness(a: Assoc, k: string) returns (i: nat)
    requires k in KeySet(a)
    ensures i < |a| && a[i].0 == k
  {
    if a[0].0 != k {
      i := KeySetWitness(a[1..], k);
      i := i + 1;
    } else {
      i := 0;
    }
  }

  /** PHP array keys are unique. */
  predicate DistinctKeys(a: Assoc) {
    forall i, j :: 0 <= i < j < |a| ==> a[i].0 != a[j].0
  }

  lemma {:induction false} KeySetAbsent(a: Assoc, k: string)
    requires forall i :: 0 <= i < |a| ==> a[i].0 != k
    ensures k !in KeySet(a)
  {
    if a != [] {
      KeySetAbsent(a[1..], k);
    }
  }

  lemma KeySetCons(x: (string, string), a: Assoc)
    ensures KeySet([x] + a) == {x.0} + KeySet(a)
  {
    assert ([x] + a)[1..] == a;
  }

  lemma DistinctHeadFresh(a: Assoc)
    requires DistinctKeys(a) && a != []
    ensures DistinctKeys(a[1..]) && a[0].0 !in KeySet(a[1..])
  {
    KeySetAbsent(a[1..], a[0].0);
  }

  /** `$a[$k] ?? null` */
  function Get(a: Assoc, k: string): (r: Option<string>)
    ensures r.Some? <==> k in KeySet(a)
  {
    if a == [] then None else if a[0].0 == k then Some(a[0].1) else Get(a[1..], k)
  }

  lemma {:induction false} GetAt(a: Assoc, i: nat)
    requires DistinctKeys(a) && i < |a|
    ensures Get(a, a[i].0) == Some(a[i].1)
  {
    if i > 0 {
      DistinctHeadFresh(a);
      KeySetAt(a[1..], i - 1);
      GetAt(a[1..], i - 1);
    }
  }

  /** The entries of `a`, each taking `b`'s value when `b` has its key. */
  function Overlay(a: Assoc, b: Assoc): (r: Assoc)
    ensures |r| == |a| && KeySet(r) == KeySet(a)
  {
    if a == [] then [] else [(a[0].0, Get(b, a[0].0).GetOr(a[0].1))] + Overlay(a[1..], b)
  }

  lemma {:induction false} OverlayAt(a: Assoc, b: Assoc, i: nat)
    requires i < |a|
    ensures Overlay(a, b)[i].0 == a[i].0
  {
    if i > 0 {
      OverlayAt(a[1..], b, i - 1);
    }
  }

  /** The entries of `b` whose key `a` lacks. */
  function Extra(a: Assoc, b: Assoc): (r: Assoc)
    ensures KeySet(r) == KeySet(b) - KeySet(a)
  {
    if b == [] then []
    else if b[0].0 in KeySet(a) then Extra(a, b[1..])
    else KeySetCons(b[0], Extra(a, b[1..])); [b[0]] + Extra(a, b[1..])
  }

  /** `array_merge($a, $b)` for string keys: `a`'s keys in their order with
      `b`'s values where `b` has the key too, then `b`'s new keys. */
  function Merge(a: Assoc, b: Assoc): Assoc {
    Overlay(a, b) + Extra(a, b)
  }

  lemma {:induction false} GetOverlay(a: Assoc, b: Assoc, k: string)
    requires k in KeySet(a)
    ensures Get(Overlay(a, b), k) == if k in KeySet(b) then Get(b, k) else Get(a, k)
  {
    if a[0].0 != k {
      GetOverlay(a[1..], b, k);
    }
  }

  lemma {:induction false} GetExtra(a: Assoc, b: Assoc, k: string)
    requires k in KeySet(b) && k !in KeySet(a)
    ensures Get(Extra(a, b), k) == Get(b, k)
  {
    if b[0].0 != k {
      GetExtra(a, b[1..], k);
      if b[0].0 !in KeySet(a) {
        assert ([b[0]] + Extra(a, b[1..]))[1..] == Extra(a, b[1..]);
      }
    }
  }

  lemma {:induction false} GetAppend(a: Assoc, b: Assoc, k: string)
    ensures KeySet(a + b) == KeySet(a) + KeySet(b)
    ensures Get(a + b, k) == if k in KeySet(a) then Get(a, k) else Get(b, k)
  {
    if a != [] {
      assert (a + b)[1..] == a[1..] + b;
      GetAppend(a[1..], b, k);
      KeySetCons(a[0], a[1..] + b);
      assert a + b == [a[0]] + (a[1..] + b);
    } else {
      assert a + b == b;
    }
  }

  lemma {:induction false} ExtraDistinct(a: Assoc, b: Assoc)
    requires DistinctKeys(b)
    ensures DistinctKeys(Extra(a, b))
  {
    if b != [] {
      DistinctHeadFresh(b);
      ExtraDistinct(a, b[1..]);
      var rest := Extra(a, b[1..]);
      if b[0].0 !in KeySet(a) {
        forall j | 0 <= j < |rest| ensures rest[j].0 != b[0].0 {
          KeySetAt(rest, j);
        }
        assert Extra(a, b) == [b[0]] + rest;
      }
    }
  }

  lemma {:induction false} OverlayDistinct(a: Assoc, b: Assoc)
    requires DistinctKeys(a)
    ensures DistinctKeys(Overlay(a, b))
  {
    var o := Overlay(a, b);
    forall i, j | 0 <= i < j < |o| ensures o[i].0 != o[j].0 {
      OverlayAt(a, b, i);
      OverlayAt(a, b, j);
    }
  }

  lemma AppendDistinct(a: Assoc, b: Assoc)
    requires DistinctKeys(a) && DistinctKeys(b) && KeySet(a) !! KeySet(b)
    ensures DistinctKeys(a + b)
  {
    forall i, j | 0 <= i < j < |a + b| ensures (a + b)[i].0 != (a + b)[j].0 {
      if i < |a| <= j {
        KeySetAt(a, i);
        KeySetAt(b, j - |a|);
      }
    }
  }

  /** The merged list names every package of either section once, and a
      package of both sections carries its require-dev constraint. */
  lemma MergeShape(a: Assoc, b: Assoc)
    requires DistinctKeys(a) && DistinctKeys(b)
    ensures DistinctKeys(Merge(a, b))
    ensures KeySet(Merge(a, b)) == KeySet(a) + KeySet(b)
    ensures forall k :: k in KeySet(b) ==> Get(Merge(a, b), k) == Get(b, k)
    ensures forall k :: k in KeySet(a) && k !in KeySet(b) ==> Get(Merge(a, b), k) == Get(a, k)
  {
    var o, e := Overlay(a, b), Extra(a, b);
    ExtraDistinct(a, b);
    OverlayDistinct(a, b);
    AppendDistinct(o, e);
    GetAppend(o, e, "");
    forall k | k in KeySet(b) ensures Get(Merge(a, b), k) == Get(b, k) {
      GetAppend(o, e, k);
      if k in KeySet(a) {
        GetOverlay(a, b, k);
      } else {
        GetExtra(a, b, k);
      }
    }
    forall k | k in KeySet(a) && k !in KeySet(b) ensures Get(Merge(a, b), k) == Get(a, k) {
      GetAppend(o, e, k);
      GetOverlay(a, b, k);
    }
  }

  // ---------------------------------------------------------------------------
  // isOutdatedConstraint

  predicate IsComparison(c: char) {
    c == '<' || c == '>' || c == '='
  }

  /** `[0-4]\.` at position `j`. */
  predicate TailAt(s: string, j: nat) {
    j + 2 <= |s| && '0' <= s[j] <= '4' && s[j + 1] == '.'
  }

  /** The pattern after its first `[<>=]`, tried as PCRE backtracks:
      `[<>=]*` then `\s*` then `[0-4]\.`. */
  predicate MatchOps(s: string) {
    (s != [] && IsComparison(s[0]) && MatchOps(s[1..])) || MatchSpaces(s)
  }

  /** `\s*[0-4]\.` */
  predicate MatchSpaces(s: string) {
    (s != [] && IsPcreSpace(s[0]) && MatchSpaces(s[1..])) || TailAt(s, 0)
  }

  /** isOutdatedConstraint: `/^[<>=]+\s*[0-4]\./` matches. */
  predicate IsOutdatedConstraint(version: string) {
    version != [] && IsComparison(version[0]) && MatchOps(version[1..])
  }

  /** The shape the pattern describes: `i` comparison characters (at least
      one), whitespace up to `j`, a digit from 0 to 4 and a dot. */
  predicate OutdatedAt(version: string, i: nat, j: nat) {
    1 <= i <= j && TailAt(version, j) &&
    (forall k :: 0 <= k < i ==> IsComparison(version[k])) &&
    (forall k :: i <= k < j ==> IsPcreSpace(version[k]))
  }

  lemma {:induction false} SpacesSound(s: string) returns (j: nat)
    requires MatchSpaces(s)
    ensures TailAt(s, j) && forall k :: 0 <= k < j ==> IsPcreSpace(s[k])
  {
    if TailAt(s, 0) {
      j := 0;
    } else {
      var j' := SpacesSound(s[1..]);
      j := j' + 1;
      forall k | 0 <= k < j ensures IsPcreSpace(s[k]) {
        if k > 0 {
          assert s[k] == s[1..][k - 1];
        }
      }
    }
  }

  lemma {:induction false} SpacesComplete(s: string, j: nat)
    requires TailAt(s, j) && forall k :: 0 <= k < j ==> IsPcreSpace(s[k])
    ensures MatchSpaces(s)
  {
    if j > 0 {
      forall k | 0 <= k < j - 1 ensures IsPcreSpace(s[1..][k]) {
        assert s[1..][k] == s[k + 1];
      }
      SpacesComplete(s[1..], j - 1);
    }
  }

  lemma {:induction false} OpsSound(s: string) returns (i: nat, j: nat)
    requires MatchOps(s)
    ensures i <= j && TailAt(s, j)
    ensures forall k :: 0 <= k < i ==> IsComparison(s[k])
    ensures forall k :: i <= k < j ==> IsPcreSpace(s[k])
  {
    if s != [] && IsComparison(s[0]) && MatchOps(s[1..]) {
      var i', j' := OpsSound(s[1..]);
      i, j := i' + 1, j' + 1;
      forall k | 0 < k < j ensures s[k] == s[1..][k - 1] { }
    } else {
      i := 0;
      j := SpacesSound(s);
    }
  }

  lemma {:induction false} OpsComplete(s: string, i: nat, j: nat)
    requires i <= j && TailAt(s, j)
    requires forall k :: 0 <= k < i ==> IsComparison(s[k])
    requires forall k :: i <= k < j ==> IsPcreSpace(s[k])
    ensures MatchOps(s)
  {
    if i > 0 {
      forall k | 0 <= k < j - 1 ensures s[1..][k] == s[k + 1] { }
      OpsComplete(s[1..], i - 1, j - 1);
    } else {
      SpacesComplete(s, j);
    }
  }

  /** The matcher accepts exactly the constraints of the pattern's shape. */
  lemma OutdatedConstraintMeaning(version: string)
    ensures IsOutdatedConstraint(version) <==> exists i: nat, j: nat :: OutdatedAt(version, i, j)
  {
    if IsOutdatedConstraint(version) {
      var rest := version[1..];
      var i, j := OpsSound(rest);
      forall k | 0 < k < j + 1 ensures version[k] == rest[k - 1] { }
      assert OutdatedAt(version, i + 1, j + 1);
    }
    if exists i: nat, j: nat :: OutdatedAt(version, i, j) {
      var i: nat, j: nat :| OutdatedAt(version, i, j);
      var rest := version[1..];
      forall k | 0 <= k < j - 1 ensures rest[k] == version[k + 1] { }
      OpsComplete(rest, i - 1, j - 1);
    }
  }

  // ---------------------------------------------------------------------------
  // check

  datatype PackageIssue = PackageIssue(kind: string, severity: string, message: string)

  const Outdated := PackageIssue("outdated_constraint", "medium", "Version constraint may be outdated")
  const Wildcard := PackageIssue("wildcard_version", "high", "Wildcard version constraints are not recommended")
  const DevStability := PackageIssue("dev_stability", "medium", "Development version detected - may be unstable")

  predicate IsDevConstraint(version: string) {
    StartsWith(version, "dev-") || Contains(version, "@dev")
  }

  /** The issues of one constraint, in the order the checks run. */
  function ConstraintIssues(version: string): (r: seq<PackageIssue>)
    ensures |r| <= 3
    ensures Outdated in r <==> IsOutdatedConstraint(version)
    ensures Wildcard in r <==> Contains(version, "*")
    ensures DevStability in r <==> IsDevConstraint(version)
  {
    (if IsOutdatedConstraint(version) then [Outdated] else []) +
    (if Contains(version, "*") then [Wildcard] else []) +
    (if IsDevConstraint(version) then [DevStability] else [])
  }

  datatype Package = Package(name: string, version: string, section: string, issues: seq<PackageIssue>)

  /** A package entry: 'require' whenever the require section names it. */
  function PackageOf(require: Assoc, entry: (string, string)): Package {
    Package(entry.0, entry.1, if Get(require, entry.0).Some? then "require" else "require-dev",
            ConstraintIssues(entry.1))
  }

  /** A result issue: a package issue with the package and its constraint. */
  datatype DependencyIssue = DependencyIssue(kind: string, severity: string, message: string,
                                             package: string, version: string)

  function Tag(i: PackageIssue, p: Package): DependencyIssue {
    DependencyIssue(i.kind, i.severity, i.message, p.name, p.version)
  }

  function TagAll(issues: seq<PackageIssue>, p: Package): (r: seq<DependencyIssue>)
    ensures |r| == |issues|
    ensures forall k :: 0 <= k < |r| ==> r[k] == Tag(issues[k], p)
  {
    if issues == [] then [] else [Tag(issues[0], p)] + TagAll(issues[1..], p)
  }

  function AllIssues(packages: seq<Package>): seq<DependencyIssue> {
    if packages == [] then []
    else AllIssues(packages[..|packages| - 1]) + TagAll(packages[|packages| - 1].issues, packages[|packages| - 1])
  }

  /** A decoded composer.json: its two sections, when present. */
  datatype Composer = Composer(require: Option<Assoc>, requireDev: Option<Assoc>)

  /** What reading composer.json gave. */
  datatype Read = Missing | Invalid | Decoded(data: Composer)

  datatype CheckResult =
    | Failed(error: string)
    | Checked(file: string, packages: seq<Package>, issues: seq<DependencyIssue>, phpRequirement: Option<string>)

  function AllPackages(data: Composer): seq<(string, string)> {
    Merge(data.require.GetOr([]), data.requireDev.GetOr([]))
  }

  function PackagesOf(require: Assoc, entries: seq<(string, string)>): seq<Package> {
    Map(entries, (entry: (string, string)) => PackageOf(require, entry))
  }

  function CheckOf(path: string, read: Read): CheckResult {
    match read
    case Missing => Failed("composer.json not found")
    case Invalid => Failed("Invalid composer.json file")
    case Decoded(data) =>
      var packages := PackagesOf(data.require.GetOr([]), AllPackages(data));
      Checked(path, packages, AllIssues(packages), Get(data.require.GetOr([]), "php"))
  }

  /** check */
  method Check(path: string, read: Read) returns (result: CheckResult)
    ensures result == CheckOf(path, read)
  {
    if read.Missing? {
      return Failed("composer.json not found");
    }
    if read.Invalid? {
      return Failed("Invalid composer.json file");
    }
    var require := read.data.require.GetOr([]);
    var entries := AllPackages(read.data);
    var packages: seq<Package> := [];
    var issues: seq<DependencyIssue> := [];
    for i := 0 to |entries|
      invariant packages == PackagesOf(require, entries[..i])
      invariant issues == AllIssues(packages)
    {
      var p := PackageOf(require, entries[i]);
      CheckStep(require, entries, i);
      packages := packages + [p];
      issues := issues + TagAll(p.issues, p);
    }
    TakeAll(entries);
    result := Checked(path, packages, issues, Get(require, "php"));
  }

  /** One more composer entry adds its package, and that package's issues. */
  lemma CheckStep(require: Assoc, entries: seq<(string, string)>, i: nat)
    requires i < |entries|
    ensures var p := PackageOf(require, entries[i]);
      PackagesOf(require, entries[..i + 1]) == PackagesOf(require, entries[..i]) + [p] &&
      AllIssues(PackagesOf(require, entries[..i]) + [p]) == AllIssues(PackagesOf(require, entries[..i])) + TagAll(p.issues, p)
  {
    PackagesOfStep(require, entries, i);
    AllIssuesSnoc(PackagesOf(require, entries[..i]), PackageOf(require, entries[i]));
  }

  lemma PackagesOfStep(require: Assoc, entries: seq<(string, string)>, i: nat)
    requires i < |entries|
    ensures PackagesOf(require, entries[..i + 1]) == PackagesOf(require, entries[..i]) + [PackageOf(require, entries[i])]
  {
    assert entries[..i + 1] == entries[..i] + [entries[i]];
    MapSnoc(entries[..i], entries[i], (entry: (string, string)) => PackageOf(require, entry));
  }

  lemma AllIssuesSnoc(ps: seq<Package>, p: Package)
    ensures AllIssues(ps + [p]) == AllIssues(ps) + TagAll(p.issues, p)
  {
    assert (ps + [p])[..|ps|] == ps;
  }

  lemma {:induction false} AllIssuesAppend(a: seq<Package>, b: seq<Package>)
    ensures AllIssues(a + b) == AllIssues(a) + AllIssues(b)
  {
    if b != [] {
      var front := b[..|b| - 1];
      AllIssuesAppend(a, front);
      assert (a + b)[..|a + b| - 1] == a + front;
    } else {
      assert a + b == a;
    }
  }

  /** The issues are the packages' issues in package order, each with its
      package's name and constraint. */
  lemma AllIssuesSplit(packages: seq<Package>, k: nat)
    requires k < |packages|
    ensures AllIssues(packages) ==
      AllIssues(packages[..k]) + TagAll(packages[k].issues, packages[k]) + AllIssues(packages[k + 1..])
  {
    var upto := packages[..k + 1];
    assert upto + packages[k + 1..] == packages;
    AllIssuesAppend(upto, packages[k + 1..]);
    assert upto[..k] == packages[..k];
  }

  /** What check says of one package: its section is 'require' exactly
      when the require section names it, its constraint is require-dev's
      when both sections name it, and its issues are its constraint's. */
  predicate PackageFacts(req: Assoc, dev: Assoc, p: Package) {
    (p.section == "require" <==> p.name in KeySet(req)) &&
    Some(p.version) == (if p.name in KeySet(dev) then Get(dev, p.name) else Get(req, p.name)) &&
    p.issues == ConstraintIssues(p.version)
  }

  /** One package per name of either section, each as PackageFacts says. */
  lemma MergedPackages(req: Assoc, dev: Assoc)
    requires DistinctKeys(req) && DistinctKeys(dev)
    ensures var ps := PackagesOf(req, Merge(req, dev));
      (forall i, j :: 0 <= i < j < |ps| ==> ps[i].name != ps[j].name) &&
      Names(ps) == KeySet(req) + KeySet(dev) &&
      forall m :: 0 <= m < |ps| ==> PackageFacts(req, dev, ps[m])
  {
    var entries := Merge(req, dev);
    MergeShape(req, dev);
    NamesOfPackages(req, entries);
    var ps := PackagesOf(req, entries);
    forall m | 0 <= m < |ps| ensures PackageFacts(req, dev, ps[m]) {
      GetAt(entries, m);
      KeySetAt(entries, m);
    }
  }

  /** The outcome of check: the two failures, otherwise the file, the php
      requirement and the packages of MergedPackages with their issues. */
  lemma CheckMeaning(path: string, read: Read)
    requires read.Decoded? ==> DistinctKeys(read.data.require.GetOr([])) && DistinctKeys(read.data.requireDev.GetOr([]))
    ensures read == Missing ==> CheckOf(path, read) == Failed("composer.json not found")
    ensures read == Invalid ==> CheckOf(path, read) == Failed("Invalid composer.json file")
    ensures read.Decoded? ==> var r := CheckOf(path, read);
      var req, dev := read.data.require.GetOr([]), read.data.requireDev.GetOr([]);
      r.Checked? && r.file == path && r.phpRequirement == Get(req, "php") &&
      r.packages == PackagesOf(req, Merge(req, dev)) && r.issues == AllIssues(r.packages) &&
      Names(r.packages) == KeySet(req) + KeySet(dev) &&
      forall m :: 0 <= m < |r.packages| ==> PackageFacts(req, dev, r.packages[m])
  {
    if read.Decoded? {
      MergedPackages(read.data.require.GetOr([]), read.data.requireDev.GetOr([]));
    }
  }

  /** The package names. */
  function Names(packages: seq<Package>): set<string> {
    if packages == [] then {} else Names(packages[..|packages| - 1]) + {packages[|packages| - 1].name}
  }

  lemma {:induction false} NamesOfPackages(require: Assoc, entries: Assoc)
    ensures Names(PackagesOf(require, entries)) == KeySet(entries)
  {
    if entries != [] {
      NamesOfPackages(require, entries[..|entries| - 1]);
      PackageNamesStep(require, entries);
      KeySetStep(entries);
    }
  }

  /** The last entry's package adds the last entry's name. */
  lemma PackageNamesStep(require: Assoc, entries: Assoc)
    requires entries != []
    ensures Names(PackagesOf(require, entries)) ==
      Names(PackagesOf(require, entries[..|entries| - 1])) + {entries[|entries| - 1].0}
  {
    var front, last := entries[..|entries| - 1], entries[|entries| - 1];
    assert front + [last] == entries;
    var p := PackageOf(require, last);
    MapSnoc(front, last, (entry: (string, string)) => PackageOf(require, entry));
    NamesSnoc(PackagesOf(require, front), p);
  }

  /** The last entry adds its key. */
  lemma KeySetStep(entries: Assoc)
    requires entries != []
    ensures KeySet(entries) == KeySet(entries[..|entries| - 1]) + {entries[|entries| - 1].0}
  {
    var front, last := entries[..|entries| - 1], entries[|entries| - 1];
    assert front + [last] == entries;
    GetAppend(front, [last], "");
    KeySetCons(last, []);
  }

  /** One more package adds its name. */
  lemma NamesSnoc(packages: seq<Package>, p: Package)
    ensures Names(packages + [p]) == Names(packages) + {p.name}
  {
    assert (packages + [p])[..|packages|] == packages;
  }

  // ---------------------------------------------------------------------------
  // getDependencyTree

  datatype Tree = Tree(direct: Assoc, dev: Assoc)

  /** getDependencyTree: None stands for the empty array returned when the
      file cannot be read or decoded; a missing section is empty. */
  function GetDependencyTree(read: Read): (r: Option<Tree>)
    ensures r.Some? <==> read.Decoded?
    ensures read.Decoded? ==> r.value.direct == read.data.require.GetOr([]) && r.value.dev == read.data.requireDev.GetOr([])
  {
    match read
    case Decoded(data) => Some(Tree(data.require.GetOr([]), data.requireDev.GetOr([])))
    case _ => None
  }

  /** The tree's two sections name exactly the packages check lists. */
  lemma TreeMatchesCheck(path: string, read: Read)
    requires read.Decoded?
    requires DistinctKeys(read.data.require.GetOr([])) && DistinctKeys(read.data.requireDev.GetOr([]))
    ensures var t := GetDependencyTree(read).value;
      Names(CheckOf(path, read).packages) == KeySet(t.direct) + KeySet(t.dev)
  {
    MergedPackages(read.data.require.GetOr([]), read.data.requireDev.GetOr([]));
  }
}
