/** Version strings (src/Utils/VersionComparator.php).  PHP's `version_compare`
    is restricted to dotted-numeric versions: each dot-separated segment counts
    by the value of its leading digits, segments compare left to right, and a
    version that is a proper prefix of another is the smaller ("7.4" < "7.4.0"). */
module VersionComparator {
  import opened Text
  import opened Sorting

  /** The numeric segments of a dotted version. */
  function Segments(v: string): (r: seq<nat>)
    ensures |r| == |Split(v, '.')|
  {
    var parts := Split(v, '.');
    seq(|parts|, i requires 0 <= i < |parts| => DigitsValue(parts[i][..DigitRun(parts[i])]))
  }

  function CompareSegments(a: seq<nat>, b: seq<nat>): (r: int)
    ensures -1 <= r <= 1
    ensures a == b ==> r == 0
  {
    if a == [] && b == [] then 0
    else if a == [] then -1
    else if b == [] then 1
    else if a[0] < b[0] then -1
    else if a[0] > b[0] then 1
    else CompareSegments(a[1..], b[1..])
  }

  /** version_compare($a, $b): -1, 0 or 1. */
  function Compare(a: string, b: string): (r: int)
    ensures -1 <= r <= 1
  {
    CompareSegments(Segments(a), Segments(b))
  }

  /** The relation `usort` sees through `compare`: a stays before b. */
  function VersionLe(a: string, b: string): bool {
    Compare(a, b) <= 0
  }

  lemma {:induction false} CompareSegmentsAntisymmetric(a: seq<nat>, b: seq<nat>)
    ensures CompareSegments(a, b) == -CompareSegments(b, a)
  {
    if a != [] && b != [] && a[0] == b[0] {
      CompareSegmentsAntisymmetric(a[1..], b[1..]);
    }
  }

  lemma {:induction false} CompareSegmentsTransitive(a: seq<nat>, b: seq<nat>, c: seq<nat>)
    requires CompareSegments(a, b) <= 0 && CompareSegments(b, c) <= 0
    ensures CompareSegments(a, c) <= 0
  {
    if a != [] && b != [] && c != [] && a[0] == b[0] == c[0] {
      CompareSegmentsTransitive(a[1..], b[1..], c[1..]);
    }
  }

  /** `compare` is antisymmetric: swapping the arguments negates the result. */
  lemma CompareAntisymmetric(a: string, b: string)
    ensures Compare(a, b) == -Compare(b, a)
  {
    CompareSegmentsAntisymmetric(Segments(a), Segments(b));
  }

  /** `compare` orders versions transitively. */
  lemma CompareTransitive(a: string, b: string, c: string)
    requires Compare(a, b) <= 0 && Compare(b, c) <= 0
    ensures Compare(a, c) <= 0
  {
    CompareSegmentsTransitive(Segments(a), Segments(b), Segments(c));
  }

  lemma VersionLeTotalPreorder()
    ensures Total(VersionLe) && Transitive(VersionLe)
  {
    forall x, y ensures VersionLe(x, y) || VersionLe(y, x) {
      CompareAntisymmetric(x, y);
    }
    forall x, y, z | VersionLe(x, y) && VersionLe(y, z) ensures VersionLe(x, z) {
      CompareTransitive(x, y, z);
    }
  }

  /** isGreaterThanOrEqual: b compares at or below a. */
  predicate IsGreaterThanOrEqual(a: string, b: string): (r: bool)
    ensures r <==> Compare(b, a) <= 0
  {
    CompareAntisymmetric(a, b);
    Compare(a, b) >= 0
  }

  /** isLessThanOrEqual: reflexive, and of two versions one is always at or
      below the other. */
  predicate IsLessThanOrEqual(a: string, b: string): (r: bool)
    ensures a == b ==> r
    ensures !r ==> Compare(b, a) < 0
  {
    CompareAntisymmetric(a, b);
    Compare(a, b) <= 0
  }

  /** The two one-sided tests are mirror images of each other. */
  lemma GreaterOrEqualMirrorsLessOrEqual(a: string, b: string)
    ensures IsGreaterThanOrEqual(a, b) <==> IsLessThanOrEqual(b, a)
  {
    CompareAntisymmetric(a, b);
  }

  /** isBetween: inclusive at both ends, so only a range whose minimum is
      at or below its maximum holds anything. */
  predicate IsBetween(v: string, min: string, max: string): (r: bool)
    ensures r ==> Compare(min, max) <= 0
  {
    BetweenOrdered(v, min, max);
    Compare(v, min) >= 0 && Compare(v, max) <= 0
  }

  lemma BetweenOrdered(v: string, min: string, max: string)
    ensures Compare(v, min) >= 0 && Compare(v, max) <= 0 ==> Compare(min, max) <= 0
  {
    if Compare(v, min) >= 0 && Compare(v, max) <= 0 {
      CompareAntisymmetric(v, min);
      CompareTransitive(min, v, max);
    }
  }

  /** Both bounds of a non-empty range lie inside it. */
  lemma IsBetweenInclusive(min: string, max: string)
    ensures IsBetween(min, min, max) <==> Compare(min, max) <= 0
    ensures IsBetween(max, min, max) <==> Compare(min, max) <= 0
  {
    CompareSegmentsAntisymmetric(Segments(min), Segments(min));
    CompareSegmentsAntisymmetric(Segments(max), Segments(max));
    CompareAntisymmetric(min, max);
  }

  /** The available versions inside [from, to], in their given order. */
  function InRange(available: seq<string>, from: string, to: string): (r: seq<string>)
    ensures forall v :: v in r ==> v in available && IsBetween(v, from, to)
    ensures forall v :: v in available && IsBetween(v, from, to) ==> v in r
  {
    if available == [] then []
    else
      var rest := InRange(available[..|available| - 1], from, to);
      var v := available[|available| - 1];
      assert available == available[..|available| - 1] + [v];
      if IsBetween(v, from, to) then rest + [v] else rest
  }

  /** getVersionsInRange: keeps the available versions in [from, to] and sorts
      them ascending with `compare`. */
  method GetVersionsInRange(from: string, to: string, available: seq<string>) returns (versions: seq<string>)
    ensures multiset(versions) == multiset(InRange(available, from, to))
    ensures forall v :: v in versions <==> v in available && IsBetween(v, from, to)
    ensures SortedBy(versions, VersionLe)
  {
    versions := [];
    for i := 0 to |available|
      invariant versions == InRange(available[..i], from, to)
    {
      assert available[..i + 1][..i] == available[..i];
      if IsBetween(available[i], from, to) {
        versions := versions + [available[i]];
      }
    }
    assert available[..|available|] == available;
    var picked := versions;
    versions := SortBy(versions, VersionLe);
    VersionLeTotalPreorder();
    SortBySorted(picked, VersionLe);
    forall v ensures v in versions <==> v in picked {
      assert v in versions <==> v in multiset(versions);
      assert v in picked <==> v in multiset(picked);
    }
  }

  /** normalize: lower-cased, trimmed, and one leading "v" or "php" removed. */
  function Normalize(version: string): (r: string)
    ensures var t := LowerStr(Trim(version));
      (StartsWith(t, "v") ==> t == "v" + r) &&
      (!StartsWith(t, "v") && StartsWith(t, "php") ==> t == "php" + r) &&
      (!StartsWith(t, "v") && !StartsWith(t, "php") ==> r == t)
    ensures forall i :: 0 <= i < |r| ==> !IsAsciiUpper(r[i])
  {
    var t := LowerStr(Trim(version));
    if StartsWith(t, "v") then t[1..]
    else if StartsWith(t, "php") then t[3..]
    else t
  }

  /** getMajorMinor */
  function GetMajorMinor(version: string): (r: string)
    ensures var n := Normalize(version);
      |r| <= |n| && r == n[..|r|]
  {
    var n := Normalize(version);
    var parts := Split(n, '.');
    if |parts| >= 2 then
      JoinSplit(n, '.');
      JoinFirstTwo(parts, ".");
      parts[0] + "." + parts[1]
    else n
  }

  /** A version with at least two segments keeps exactly its first two. */
  lemma GetMajorMinorSegments(version: string)
    requires |Split(Normalize(version), '.')| >= 2
    ensures Split(GetMajorMinor(version), '.') == Split(Normalize(version), '.')[..2]
  {
    var parts := Split(Normalize(version), '.');
    SplitJoin(parts[..2], '.');
    assert Join(parts[..2], ".") == parts[0] + "." + parts[1];
  }

  /** A version without a dot is returned normalised. */
  lemma GetMajorMinorSingle(version: string)
    requires '.' !in Normalize(version)
    ensures GetMajorMinor(version) == Normalize(version)
  {
    SplitNoDelimiter(Normalize(version), '.');
  }

  /** getNextMinor: a version with at least two segments gives exactly two,
      the same major and the minor's integer value plus one; any other
      version is returned normalised. */
  function GetNextMinor(version: string): (r: string)
    ensures var parts := Split(Normalize(version), '.');
      |parts| >= 2 ==>
        var next := Split(r, '.');
        |next| == 2 && next[0] == parts[0] && ToInt(next[1]) == ToInt(parts[1]) + 1
    ensures |Split(Normalize(version), '.')| < 2 ==> r == Normalize(version)
  {
    var parts := Split(Normalize(version), '.');
    if |parts| >= 2 then
      var minor := IntToString(ToInt(parts[1]) + 1);
      NoDotInIntToString(ToInt(parts[1]) + 1);
      SplitPair(parts[0], minor, '.');
      ToIntIntToString(ToInt(parts[1]) + 1);
      parts[0] + "." + minor
    else Normalize(version)
  }

  /** getNextMajor.  `explode` always yields at least one piece, so the source's
      fall-back return of the normalised version cannot be reached. */
  function GetNextMajor(version: string): (r: string)
    ensures var next := Split(r, '.');
      |next| == 2 && next[1] == "0" &&
      ToInt(next[0]) == ToInt(Split(Normalize(version), '.')[0]) + 1
  {
    var major := ToInt(Split(Normalize(version), '.')[0]) + 1;
    NoDotInIntToString(major);
    SplitPair(IntToString(major), "0", '.');
    assert IntToString(major) + ".0" == IntToString(major) + ['.'] + "0";
    ToIntIntToString(major);
    IntToString(major) + ".0"
  }
}
