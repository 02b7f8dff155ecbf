/** src/Database/DatabaseManager.php: the rule database.  Each getter reads
    one JSON file under the database directory and memoises non-null results
    in a cache keyed by a string built from its arguments; getAllPhpChanges
    composes the change lists of every adjacent pair of PHP versions in a
    range.  The file system is the `disk` parameter: what Helpers::readJson
    returns for each path, a missing entry standing for null (a missing file
    or invalid JSON). */
module DatabaseManager {
  import opened Wrappers
  import opened Text
  import opened Rules
  import Seqs

  type Disk = map<string, Doc>

  /** Helpers::readJson */
  function ReadJson(disk: Disk, path: string): (r: Option<Doc>)
    ensures r.Some? <==> path in disk
    ensures r.Some? ==> r.value == disk[path]
  {
    if path in disk then Some(disk[path]) else None
  }

  /** The version progression of getAllPhpChanges, which is also what
      getAvailablePhpVersions returns. */
  const PhpVersions: seq<string> := ["7.2", "7.3", "7.4", "8.0", "8.1", "8.2", "8.3"]

  /** Each entry of PhpVersions as a number of tenths. */
  const PhpVersionTenths: seq<int> := [72, 73, 74, 80, 81, 82, 83]

  /** The four lists a composed change set always has. */
  const ChangeKeys: seq<string> := ["removed_functions", "deprecated_features", "behavior_changes", "new_features"]

  const Platforms: seq<string> := ["moodle", "wordpress", "magento", "prestashop", "symfony", "laravel", "generic"]

  // ---------------------------------------------------------------------------
  // Cache keys and file paths of the getters

  function PhpChangesKey(from: string, to: string): string {
    "php_" + from + "_to_" + to
  }

  function PhpChangesPath(base: string, from: string, to: string): string {
    base + "/php-changes/" + from + "-to-" + to + ".json"
  }

  function PlatformDeprecatedKey(platform: string): string {
    "platform_" + platform + "_deprecated"
  }

  function PlatformDeprecatedPath(base: string, platform: string): string {
    base + "/platforms/" + platform + "/deprecated-functions.json"
  }

  function PlatformMetadataKey(platform: string): string {
    "platform_" + platform + "_metadata"
  }

  function PlatformMetadataPath(base: string, platform: string): string {
    base + "/platforms/" + platform + "/metadata.json"
  }

  function PlatformVersionKey(platform: string, from: string, to: string): string {
    "platform_" + platform + "_" + from + "_to_" + to
  }

  function PlatformVersionPath(base: string, platform: string, from: string, to: string): string {
    base + "/platforms/" + platform + "/versions/" + from + "-to-" + to + ".json"
  }

  function ServerConfigKey(from: string, to: string): string {
    "server_" + from + "_to_" + to
  }

  function ServerConfigPath(base: string, from: string, to: string): string {
    base + "/server-configs/" + from + "-to-" + to + ".json"
  }

  // ---------------------------------------------------------------------------
  // Memoisation

  /** What a getter returns: the cached document when the key is cached
      (`isset` holds for every cached entry, since only non-null results are
      stored), otherwise what readJson gives for the path. */
  function Lookup(cache: map<string, Doc>, disk: Disk, key: string, path: string): (r: Option<Doc>)
    ensures key in cache ==> r == Some(cache[key])
    ensures key !in cache ==> r == ReadJson(disk, path)
  {
    if key in cache then Some(cache[key]) else ReadJson(disk, path)
  }

  /** The cache after a getter returned `data` for `key`. */
  function Remember(cache: map<string, Doc>, key: string, data: Option<Doc>): (r: map<string, Doc>)
    ensures data.None? ==> r == cache
    ensures data.Some? ==> r == cache[key := data.value]
  {
    if data.Some? then cache[key := data.value] else cache
  }

  /** A second call with the same key returns what the first one returned
      when that was not null, whatever the files hold by then; after a null
      result the files are read again. */
  lemma LookupMemoised(cache: map<string, Doc>, disk: Disk, later: Disk, key: string, path: string)
    ensures var first := Lookup(cache, disk, key, path);
      var cache' := Remember(cache, key, first);
      (first.Some? ==> Lookup(cache', later, key, path) == first) &&
      (first.None? ==> key !in cache' && Lookup(cache', later, key, path) == ReadJson(later, path))
  {
  }

  /** Remembering only touches its own key. */
  lemma RememberOtherKeys(cache: map<string, Doc>, key: string, data: Option<Doc>, other: string)
    requires other != key
    ensures (other in Remember(cache, key, data)) == (other in cache)
    ensures other in cache ==> Remember(cache, key, data)[other] == cache[other]
  {
  }

  /** `after` keeps every entry of `before`, and each entry it adds is
      under a "php_" key, as getPhpChanges writes them. */
  predicate GrewByPhpKeys(before: map<string, Doc>, after: map<string, Doc>) {
    (forall k :: k in before ==> k in after && after[k] == before[k]) &&
    (forall k :: k in after && k !in before ==> IsPhpKey(k))
  }

  predicate IsPhpKey(key: string) {
    |key| >= 4 && key[..4] == "php_"
  }

  lemma GrewByPhpKeysReflexive(cache: map<string, Doc>)
    ensures GrewByPhpKeys(cache, cache)
  {
  }

  lemma GrewByPhpKeysTransitive(a: map<string, Doc>, b: map<string, Doc>, c: map<string, Doc>)
    requires GrewByPhpKeys(a, b) && GrewByPhpKeys(b, c)
    ensures GrewByPhpKeys(a, c)
  {
  }

  /** A platform lookup reads the same data before and after a composition
      of PHP changes, whose keys never clash with "platform_..." keys. */
  lemma PlatformLookupUnaffected(before: map<string, Doc>, after: map<string, Doc>, disk: Disk,
                                 platform: string, path: string)
    requires GrewByPhpKeys(before, after)
    ensures Lookup(after, disk, PlatformDeprecatedKey(platform), path) ==
            Lookup(before, disk, PlatformDeprecatedKey(platform), path)
  {
    var key := PlatformDeprecatedKey(platform);
    assert key[..4] == "plat";
    assert !IsPhpKey(key);
  }

  // ---------------------------------------------------------------------------
  // Composition of a version range

  type Changes = map<string, seq<Rule>>

  /** array_search($v, $versions): the first index whose entry equals v under
      PHP's loose `==`, so "8" or "8.00" find "8.0". */
  function SearchVersion(v: string, versions: seq<string>): (r: Option<nat>)
    ensures r.Some? ==> r.value < |versions| && LooseEquals(v, versions[r.value])
    ensures r.Some? ==> forall j :: 0 <= j < r.value ==> !LooseEquals(v, versions[j])
    ensures r.None? ==> forall j :: 0 <= j < |versions| ==> !LooseEquals(v, versions[j])
  {
    if versions == [] then None
    else if LooseEquals(v, versions[0]) then Some(0)
    else
      var r := SearchVersion(v, versions[1..]);
      if r.None? then None else Some(r.value + 1)
  }

  /** The numeric value of each known version. */
  lemma PhpVersionValue(i: nat)
    requires i < |PhpVersions|
    ensures DecimalValue(PhpVersions[i]) == Some((PhpVersionTenths[i], 1))
  {
    var v := PhpVersions[i];
    assert v == [v[0], '.', v[2]];
    DecimalValueDigitDotDigit(v[0], v[2]);
  }

  /** Known versions are pairwise different under loose `==`. */
  lemma KnownVersionsDistinct(i: nat, j: nat)
    requires i < |PhpVersions| && j < |PhpVersions| && i != j
    ensures !LooseEquals(PhpVersions[i], PhpVersions[j])
  {
    PhpVersionValue(i);
    PhpVersionValue(j);
    assert Pow10(1) == 10;
    if i < j {
      TenthsIncrease(i, j);
    } else {
      TenthsIncrease(j, i);
    }
  }

  lemma {:induction false} TenthsIncrease(i: nat, j: nat)
    requires i < j < |PhpVersionTenths|
    ensures PhpVersionTenths[i] < PhpVersionTenths[j]
    decreases j - i
  {
    if i + 1 < j {
      TenthsIncrease(i + 1, j);
    }
    TenthsStep(i);
  }

  lemma TenthsStep(i: nat)
    requires i + 1 < |PhpVersionTenths|
    ensures PhpVersionTenths[i] < PhpVersionTenths[i + 1]
  {
  }

  /** array_search finds the first loosely equal entry. */
  lemma {:induction false} SearchVersionAt(v: string, versions: seq<string>, i: nat)
    requires i < |versions| && LooseEquals(v, versions[i])
    requires forall j :: 0 <= j < i ==> !LooseEquals(v, versions[j])
    ensures SearchVersion(v, versions) == Some(i)
  {
    if i > 0 {
      SearchVersionAt(v, versions[1..], i - 1);
    }
  }

  /** Every known version is found at its own index. */
  lemma SearchKnownVersion(i: nat)
    requires i < |PhpVersions|
    ensures SearchVersion(PhpVersions[i], PhpVersions) == Some(i)
  {
    forall j | 0 <= j < i
      ensures !LooseEquals(PhpVersions[i], PhpVersions[j])
    {
      KnownVersionsDistinct(i, j);
    }
    SearchVersionAt(PhpVersions[i], PhpVersions, i);
  }

  /** The cache key of the hop from PhpVersions[i] to PhpVersions[i + 1]. */
  function HopKey(i: nat): string
    requires i + 1 < |PhpVersions|
  {
    PhpChangesKey(PhpVersions[i], PhpVersions[i + 1])
  }

  function HopPath(base: string, i: nat): string
    requires i + 1 < |PhpVersions|
  {
    PhpChangesPath(base, PhpVersions[i], PhpVersions[i + 1])
  }

  /** Different hops use different cache keys (each key spells out its start
      version at positions 4 to 6). */
  lemma HopKeysDistinct(i: nat, j: nat)
    requires i + 1 < |PhpVersions| && j + 1 < |PhpVersions| && i != j
    ensures HopKey(i) != HopKey(j)
  {
    assert HopKey(i)[4..7] == PhpVersions[i];
    assert HopKey(j)[4..7] == PhpVersions[j];
  }

  /** What getPhpChanges gives for hop i. */
  function HopDoc(cache: map<string, Doc>, disk: Disk, base: string, i: nat): Option<Doc>
    requires i + 1 < |PhpVersions|
  {
    Lookup(cache, disk, HopKey(i), HopPath(base, i))
  }

  /** The documents of hops lo .. hi - 1, in order. */
  function HopDocs(cache: map<string, Doc>, disk: Disk, base: string, lo: nat, hi: nat): (r: seq<Option<Doc>>)
    requires lo <= hi < |PhpVersions|
    ensures |r| == hi - lo
    decreases hi - lo
  {
    if lo == hi then [] else HopDocs(cache, disk, base, lo, hi - 1) + [HopDoc(cache, disk, base, hi - 1)]
  }

  lemma HopDocsSnoc(cache: map<string, Doc>, disk: Disk, base: string, lo: nat, i: nat)
    requires lo <= i && i + 1 < |PhpVersions|
    ensures HopDocs(cache, disk, base, lo, i + 1) == HopDocs(cache, disk, base, lo, i) + [HopDoc(cache, disk, base, i)]
  {
  }

  /** What one document adds to one list: its list under that key, or
      nothing when the document is null or lacks the key. */
  function Contribution(doc: Option<Doc>, key: string): (r: seq<Rule>)
    ensures doc.None? ==> r == []
    ensures doc.Some? && key !in doc.value ==> r == []
  {
    if doc.Some? && key in doc.value then doc.value[key] else []
  }

  /** The in-order concatenation of every document's list under `key`. */
  function ConcatKey(docs: seq<Option<Doc>>, key: string): seq<Rule> {
    if docs == [] then [] else ConcatKey(docs[..|docs| - 1], key) + Contribution(docs[|docs| - 1], key)
  }

  /** The change set getAllPhpChanges builds from a sequence of hop documents. */
  function Compose(docs: seq<Option<Doc>>): (r: Changes)
    ensures r.Keys == {"removed_functions", "deprecated_features", "behavior_changes", "new_features"}
    ensures forall k :: k in r ==> r[k] == ConcatKey(docs, k)
  {
    map[
      "removed_functions" := ConcatKey(docs, "removed_functions"),
      "deprecated_features" := ConcatKey(docs, "deprecated_features"),
      "behavior_changes" := ConcatKey(docs, "behavior_changes"),
      "new_features" := ConcatKey(docs, "new_features")]
  }

  /** getAllPhpChanges' two outcomes: the four empty lists for a range it
      cannot walk, the composed hops otherwise. */
  lemma AllPhpChangesCases(cache: map<string, Doc>, disk: Disk, base: string, from: string, to: string)
    ensures var fi := SearchVersion(from, PhpVersions); var ti := SearchVersion(to, PhpVersions);
      AllPhpChanges(cache, disk, base, from, to) ==
        if fi.None? || ti.None? || fi.value >= ti.value then NoChanges
        else Compose(HopDocs(cache, disk, base, fi.value, ti.value))
  {
    ComposeNothing();
  }

  /** The four empty lists getAllPhpChanges starts from. */
  const NoChanges: Changes :=
    map["removed_functions" := [], "deprecated_features" := [], "behavior_changes" := [], "new_features" := []]

  /** No hop at all gives the four empty lists. */
  lemma ComposeNothing()
    ensures Compose([]) == NoChanges
  {
  }

  /** getAllPhpChanges as a function of the cache and the files at the call. */
  function AllPhpChanges(cache: map<string, Doc>, disk: Disk, base: string, from: string, to: string): (r: Changes)
    ensures r.Keys == {"removed_functions", "deprecated_features", "behavior_changes", "new_features"}
    ensures var fi := SearchVersion(from, PhpVersions); var ti := SearchVersion(to, PhpVersions);
      if fi.None? || ti.None? || fi.value >= ti.value then forall k :: k in r ==> r[k] == []
      else r == Compose(HopDocs(cache, disk, base, fi.value, ti.value))
  {
    var fi := SearchVersion(from, PhpVersions);
    var ti := SearchVersion(to, PhpVersions);
    if fi.None? || ti.None? || fi.value >= ti.value then Compose([])
    else Compose(HopDocs(cache, disk, base, fi.value, ti.value))
  }

  /** Concatenation distributes over splitting the hops. */
  lemma {:induction false} ConcatKeySplit(a: seq<Option<Doc>>, b: seq<Option<Doc>>, key: string)
    ensures ConcatKey(a + b, key) == ConcatKey(a, key) + ConcatKey(b, key)
    decreases |b|
  {
    if b == [] {
      assert a + b == a;
    } else {
      var b', last := b[..|b| - 1], b[|b| - 1];
      assert b == b' + [last];
      assert a + b == (a + b') + [last];
      ConcatKeyAppend(a + b', last, key);
      ConcatKeyAppend(b', last, key);
      ConcatKeySplit(a, b', key);
      Seqs.AppendAssoc(ConcatKey(a, key), ConcatKey(b', key), Contribution(last, key));
    }
  }

  lemma ConcatKeyAppend(docs: seq<Option<Doc>>, doc: Option<Doc>, key: string)
    ensures ConcatKey(docs + [doc], key) == ConcatKey(docs, key) + Contribution(doc, key)
  {
    assert (docs + [doc])[..|docs|] == docs;
  }

  /** Two change sets with the four keys agree when their four lists do. */
  lemma SameChanges(a: Changes, b: Changes)
    requires a.Keys == b.Keys == {"removed_functions", "deprecated_features", "behavior_changes", "new_features"}
    requires forall j :: 0 <= j < |ChangeKeys| ==> a[ChangeKeys[j]] == b[ChangeKeys[j]]
    ensures a == b
  {
    assert ChangeKeys[0] == "removed_functions" && ChangeKeys[1] == "deprecated_features";
    assert ChangeKeys[2] == "behavior_changes" && ChangeKeys[3] == "new_features";
  }

  /** A null hop adds nothing, and the hops around it are still composed. */
  lemma NullHopSkipped(before: seq<Option<Doc>>, after: seq<Option<Doc>>, key: string)
    ensures ConcatKey(before + [None] + after, key) == ConcatKey(before, key) + ConcatKey(after, key)
  {
    ConcatKeySplit(before + [None], after, key);
  }

  /** A hop lacking a key adds nothing to that key's list and still adds its
      other lists. */
  lemma MissingKeyHop(before: seq<Option<Doc>>, doc: Doc, after: seq<Option<Doc>>, key: string)
    ensures ConcatKey(before + [Some(doc)] + after, key) ==
      ConcatKey(before, key) + (if key in doc then doc[key] else []) + ConcatKey(after, key)
  {
    ConcatKeySplit(before + [Some(doc)], after, key);
  }

  lemma {:induction false} HopDocsSplit(cache: map<string, Doc>, disk: Disk, base: string, lo: nat, mid: nat, hi: nat)
    requires lo <= mid <= hi < |PhpVersions|
    ensures HopDocs(cache, disk, base, lo, hi) == HopDocs(cache, disk, base, lo, mid) + HopDocs(cache, disk, base, mid, hi)
    decreases hi - mid
  {
    if mid < hi {
      HopDocsSplit(cache, disk, base, lo, mid, hi - 1);
    }
  }

  /** Splitting a range at a known version: the changes from `from` to `to`
      are those from `from` to `mid` followed by those from `mid` to `to`. */
  lemma AllPhpChangesSplit(cache: map<string, Doc>, disk: Disk, base: string, i: nat, m: nat, j: nat, key: string)
    requires i < m < j < |PhpVersions|
    requires key in ChangeKeys
    ensures AllPhpChanges(cache, disk, base, PhpVersions[i], PhpVersions[j])[key] ==
      AllPhpChanges(cache, disk, base, PhpVersions[i], PhpVersions[m])[key] +
      AllPhpChanges(cache, disk, base, PhpVersions[m], PhpVersions[j])[key]
  {
    AllPhpChangesKnown(cache, disk, base, i, m, key);
    AllPhpChangesKnown(cache, disk, base, m, j, key);
    AllPhpChangesKnown(cache, disk, base, i, j, key);
    HopDocsSplit(cache, disk, base, i, m, j);
    ConcatKeySplit(HopDocs(cache, disk, base, i, m), HopDocs(cache, disk, base, m, j), key);
  }

  /** A forward range between two versions of the progression: each list
      is that list over the hops between them. */
  lemma AllPhpChangesKnown(cache: map<string, Doc>, disk: Disk, base: string, i: nat, j: nat, key: string)
    requires i < j < |PhpVersions|
    requires key in ChangeKeys
    ensures AllPhpChanges(cache, disk, base, PhpVersions[i], PhpVersions[j])[key] ==
      ConcatKey(HopDocs(cache, disk, base, i, j), key)
  {
    SearchKnownVersion(i);
    SearchKnownVersion(j);
  }

  /** A range backwards, empty, or naming an unknown version gives the four
      empty lists. */
  lemma AllPhpChangesBackwards(cache: map<string, Doc>, disk: Disk, base: string, i: nat, j: nat, key: string)
    requires j <= i < |PhpVersions|
    requires key in ChangeKeys
    ensures AllPhpChanges(cache, disk, base, PhpVersions[i], PhpVersions[j])[key] == []
  {
    SearchKnownVersion(i);
    SearchKnownVersion(j);
  }

  /** A target "a.b" outside the progression (such as "9.9" or "7.1") gives
      the four empty lists. */
  lemma AllPhpChangesUnknown(cache: map<string, Doc>, disk: Disk, base: string, from: string, a: char, b: char, key: string)
    requires IsDigit(a) && IsDigit(b)
    requires DigitValue(a) * 10 + DigitValue(b) !in PhpVersionTenths
    requires key in ChangeKeys
    ensures AllPhpChanges(cache, disk, base, from, [a, '.', b])[key] == []
  {
    UnknownVersionNotFound(a, b);
  }

  /** array_search finds no "a.b" outside the progression. */
  lemma UnknownVersionNotFound(a: char, b: char)
    requires IsDigit(a) && IsDigit(b)
    requires DigitValue(a) * 10 + DigitValue(b) !in PhpVersionTenths
    ensures SearchVersion([a, '.', b], PhpVersions).None?
  {
    DecimalValueDigitDotDigit(a, b);
    assert Pow10(1) == 10;
    forall k | 0 <= k < |PhpVersions|
      ensures !LooseEquals([a, '.', b], PhpVersions[k])
    {
      PhpVersionValue(k);
    }
  }

  /** One loop step of getAllPhpChanges: merging hop `doc` into the change set
      of the earlier hops gives the change set of the longer prefix. */
  lemma ComposeStep(docs: seq<Option<Doc>>, doc: Option<Doc>, prev: Changes, next: Changes)
    requires prev == Compose(docs)
    requires next.Keys == prev.Keys
    requires forall j :: 0 <= j < |ChangeKeys| ==>
      next[ChangeKeys[j]] == prev[ChangeKeys[j]] + Contribution(doc, ChangeKeys[j])
    ensures next == Compose(docs + [doc])
  {
    forall j | 0 <= j < |ChangeKeys|
      ensures next[ChangeKeys[j]] == Compose(docs + [doc])[ChangeKeys[j]]
    {
      ConcatKeyAppend(docs, doc, ChangeKeys[j]);
    }
    SameChanges(next, Compose(docs + [doc]));
  }

  /** Two caches read the same documents for the hops from `i` on. */
  predicate LaterHopsAgree(a: map<string, Doc>, b: map<string, Doc>, disk: Disk, base: string, i: nat) {
    forall j :: i <= j < |PhpVersions| - 1 ==> HopDoc(a, disk, base, j) == HopDoc(b, disk, base, j)
  }

  lemma LaterHopsAgreeTransitive(a: map<string, Doc>, b: map<string, Doc>, c: map<string, Doc>,
                                 disk: Disk, base: string, i: nat)
    requires LaterHopsAgree(a, b, disk, base, i) && LaterHopsAgree(b, c, disk, base, i)
    ensures LaterHopsAgree(a, c, disk, base, i)
  {
  }

  /** Fetching hop i leaves what later hops would fetch unchanged. */
  lemma LaterHopsUnchanged(before: map<string, Doc>, after: map<string, Doc>, disk: Disk, base: string, i: nat, data: Option<Doc>)
    requires i + 1 < |PhpVersions|
    requires after == Remember(before, HopKey(i), data)
    ensures LaterHopsAgree(after, before, disk, base, i + 1)
  {
    forall j | i < j < |PhpVersions| - 1
      ensures HopDoc(after, disk, base, j) == HopDoc(before, disk, base, j)
    {
      HopKeysDistinct(i, j);
      RememberOtherKeys(before, HopKey(i), data, HopKey(j));
    }
  }

  /** The inner foreach of getAllPhpChanges: every one of the four lists the
      hop document has is appended to the list under the same key. */
  method MergeHop(allChanges: Changes, changes: Doc) returns (merged: Changes)
    requires forall j :: 0 <= j < |ChangeKeys| ==> ChangeKeys[j] in allChanges
    ensures merged.Keys == allChanges.Keys
    ensures forall j :: 0 <= j < |ChangeKeys| ==>
      merged[ChangeKeys[j]] == allChanges[ChangeKeys[j]] + Contribution(Some(changes), ChangeKeys[j])
  {
    merged := allChanges;
    for k := 0 to |ChangeKeys|
      invariant merged.Keys == allChanges.Keys
      invariant forall j :: 0 <= j < |ChangeKeys| ==>
        merged[ChangeKeys[j]] == allChanges[ChangeKeys[j]] + (if j < k then Contribution(Some(changes), ChangeKeys[j]) else [])
    {
      var key := ChangeKeys[k];
      if key in changes {
        merged := merged[key := merged[key] + changes[key]];
      }
    }
  }

  /** One document merged into a four-list change set: each list gains
      what the document has under its key. */
  function Merged(changes: Changes, doc: Option<Doc>): (r: Changes)
    ensures r.Keys == changes.Keys
  {
    map k | k in changes :: changes[k] + Contribution(doc, k)
  }

  /** The body of getAllPhpChanges' loop after the read: a non-null hop
      document is merged in, a null one is skipped. */
  method MergeDoc(allChanges: Changes, changes: Option<Doc>) returns (next: Changes)
    requires allChanges.Keys == {"removed_functions", "deprecated_features", "behavior_changes", "new_features"}
    ensures next == Merged(allChanges, changes)
  {
    next := allChanges;
    if changes.Some? {
      next := MergeHop(allChanges, changes.value);
    }
    forall k | k in allChanges
      ensures next[k] == allChanges[k] + Contribution(changes, k)
    {
      var j := KeyIndex(k);
    }
  }

  /** Where a key of a change set stands in ChangeKeys. */
  function KeyIndex(key: string): (j: nat)
    requires key in {"removed_functions", "deprecated_features", "behavior_changes", "new_features"}
    ensures j < |ChangeKeys| && ChangeKeys[j] == key
  {
    if key == "removed_functions" then 0
    else if key == "deprecated_features" then 1
    else if key == "behavior_changes" then 2
    else 3
  }

  /** Merging one more document into the composition of the earlier ones
      composes them all. */
  lemma MergedCompose(docs: seq<Option<Doc>>, doc: Option<Doc>)
    ensures Merged(Compose(docs), doc) == Compose(docs + [doc])
  {
    ComposeStep(docs, doc, Compose(docs), Merged(Compose(docs), doc));
  }

  /** The cache after getAllPhpChanges has fetched the hops lo .. i - 1 in
      turn, each through the cache as the previous fetches left it. */
  ghost function CacheAfter(origin: map<string, Doc>, disk: Disk, base: string, lo: nat, i: nat): map<string, Doc>
    requires lo <= i < |PhpVersions|
    decreases i - lo
  {
    if i == lo then origin
    else
      var c := CacheAfter(origin, disk, base, lo, i - 1);
      Remember(c, HopKey(i - 1), Lookup(c, disk, HopKey(i - 1), HopPath(base, i - 1)))
  }

  /** The four lists after the hops lo .. i - 1 were merged in turn, each
      document read through the cache as it then stood. */
  ghost function ChangesAfter(origin: map<string, Doc>, disk: Disk, base: string, lo: nat, i: nat): (r: Changes)
    requires lo <= i < |PhpVersions|
    ensures r.Keys == {"removed_functions", "deprecated_features", "behavior_changes", "new_features"}
    decreases i - lo
  {
    if i == lo then NoChanges
    else
      var c := CacheAfter(origin, disk, base, lo, i - 1);
      Merged(ChangesAfter(origin, disk, base, lo, i - 1), Lookup(c, disk, HopKey(i - 1), HopPath(base, i - 1)))
  }

  /** The cache after one more hop: what that hop read, remembered. */
  lemma CacheAfterStep(origin: map<string, Doc>, disk: Disk, base: string, lo: nat, i: nat)
    requires lo < i < |PhpVersions|
    ensures var c := CacheAfter(origin, disk, base, lo, i - 1);
      CacheAfter(origin, disk, base, lo, i) == Remember(c, HopKey(i - 1), HopDoc(c, disk, base, i - 1))
  {
  }

  /** The fetches so far leave the later hops reading what they read at the
      start. */
  lemma {:induction false} CacheAfterAgrees(origin: map<string, Doc>, disk: Disk, base: string, lo: nat, i: nat)
    requires lo <= i < |PhpVersions|
    ensures LaterHopsAgree(CacheAfter(origin, disk, base, lo, i), origin, disk, base, i)
    decreases i - lo
  {
    if i > lo {
      CacheAfterAgrees(origin, disk, base, lo, i - 1);
      CacheAfterStep(origin, disk, base, lo, i);
      var c := CacheAfter(origin, disk, base, lo, i - 1);
      var data := HopDoc(c, disk, base, i - 1);
      LaterHopsUnchanged(c, Remember(c, HopKey(i - 1), data), disk, base, i - 1, data);
      LaterHopsAgreeTransitive(Remember(c, HopKey(i - 1), data), c, origin, disk, base, i);
    }
  }

  /** Hop i, read through the cache the earlier hops left, is hop i as the
      starting cache gives it. */
  lemma CacheAfterReadsHop(origin: map<string, Doc>, disk: Disk, base: string, lo: nat, i: nat)
    requires lo <= i && i + 1 < |PhpVersions|
    ensures HopDoc(CacheAfter(origin, disk, base, lo, i), disk, base, i) == HopDoc(origin, disk, base, i)
  {
    CacheAfterAgrees(origin, disk, base, lo, i);
  }

  /** The fetches so far only add "php_" entries. */
  lemma {:induction false} CacheAfterGrows(origin: map<string, Doc>, disk: Disk, base: string, lo: nat, i: nat)
    requires lo <= i < |PhpVersions|
    ensures GrewByPhpKeys(origin, CacheAfter(origin, disk, base, lo, i))
    decreases i - lo
  {
    if i == lo {
      GrewByPhpKeysReflexive(origin);
    } else {
      CacheAfterGrows(origin, disk, base, lo, i - 1);
      HopRememberGrows(origin, disk, base, lo, i);
    }
  }

  lemma HopKeyIsPhp(i: nat)
    requires i + 1 < |PhpVersions|
    ensures IsPhpKey(HopKey(i))
  {
    assert HopKey(i)[..4] == "php_";
  }

  /** Remembering what a hop read adds a "php_" entry at most. */
  lemma HopRememberGrows(origin: map<string, Doc>, disk: Disk, base: string, lo: nat, i: nat)
    requires lo < i < |PhpVersions|
    requires GrewByPhpKeys(origin, CacheAfter(origin, disk, base, lo, i - 1))
    ensures GrewByPhpKeys(origin, CacheAfter(origin, disk, base, lo, i))
  {
    var c := CacheAfter(origin, disk, base, lo, i - 1);
    var after := CacheAfter(origin, disk, base, lo, i);
    CacheAfterStep(origin, disk, base, lo, i);
    HopKeyIsPhp(i - 1);
    GrewByPhpKeysTransitive(origin, c, after);
  }

  /** What the loop builds hop by hop is the composition of the hop
      documents as the starting cache and the files give them. */
  lemma {:induction false} ChangesAfterCompose(origin: map<string, Doc>, disk: Disk, base: string, lo: nat, i: nat)
    requires lo <= i < |PhpVersions|
    ensures ChangesAfter(origin, disk, base, lo, i) == Compose(HopDocs(origin, disk, base, lo, i))
    decreases i - lo
  {
    if i == lo {
      ChangesAfterStart(origin, disk, base, lo);
    } else {
      ChangesAfterCompose(origin, disk, base, lo, i - 1);
      CacheAfterReadsHop(origin, disk, base, lo, i - 1);
      ChangesAfterStep(origin, disk, base, lo, i);
    }
  }

  lemma ChangesAfterStart(origin: map<string, Doc>, disk: Disk, base: string, lo: nat)
    requires lo < |PhpVersions|
    ensures ChangesAfter(origin, disk, base, lo, lo) == Compose(HopDocs(origin, disk, base, lo, lo))
  {
    ComposeNothing();
  }

  /** The loop step behind ChangesAfterCompose: the hop read through the
      current cache is the hop as the starting cache gives it. */
  lemma ChangesAfterStep(origin: map<string, Doc>, disk: Disk, base: string, lo: nat, i: nat)
    requires lo < i < |PhpVersions|
    requires ChangesAfter(origin, disk, base, lo, i - 1) == Compose(HopDocs(origin, disk, base, lo, i - 1))
    requires HopDoc(CacheAfter(origin, disk, base, lo, i - 1), disk, base, i - 1) == HopDoc(origin, disk, base, i - 1)
    ensures ChangesAfter(origin, disk, base, lo, i) == Compose(HopDocs(origin, disk, base, lo, i))
  {
    var docs := HopDocs(origin, disk, base, lo, i - 1);
    var doc := HopDoc(origin, disk, base, i - 1);
    ChangesAfterUnfold(origin, disk, base, lo, i);
    HopDocsSnoc(origin, disk, base, lo, i - 1);
    MergedCompose(docs, doc);
  }

  lemma ChangesAfterUnfold(origin: map<string, Doc>, disk: Disk, base: string, lo: nat, i: nat)
    requires lo < i < |PhpVersions|
    ensures ChangesAfter(origin, disk, base, lo, i) ==
      Merged(ChangesAfter(origin, disk, base, lo, i - 1), HopDoc(CacheAfter(origin, disk, base, lo, i - 1), disk, base, i - 1))
  {
  }

  /** Once the loop has run over every hop of the range. */
  lemma HopsDone(origin: map<string, Doc>, now: map<string, Doc>, changes: Changes,
                 disk: Disk, base: string, lo: nat, hi: nat)
    requires lo <= hi < |PhpVersions|
    requires now == CacheAfter(origin, disk, base, lo, hi) && changes == ChangesAfter(origin, disk, base, lo, hi)
    ensures changes == Compose(HopDocs(origin, disk, base, lo, hi)) && GrewByPhpKeys(origin, now)
  {
    ChangesAfterCompose(origin, disk, base, lo, hi);
    CacheAfterGrows(origin, disk, base, lo, hi);
  }

  /** The cache getAllPhpChanges leaves: unchanged for an empty range,
      otherwise the cache after reading each hop of the range in turn. */
  ghost function AllPhpCache(cache: map<string, Doc>, disk: Disk, base: string, from: string, to: string): map<string, Doc>
  {
    var fi := SearchVersion(from, PhpVersions);
    var ti := SearchVersion(to, PhpVersions);
    if fi.None? || ti.None? || fi.value >= ti.value then cache
    else CacheAfter(cache, disk, base, fi.value, ti.value)
  }

  // ---------------------------------------------------------------------------
  // The manager

  class DatabaseManager {
    /** `paths.database` from the configuration. */
    const databasePath: string
    var cache: map<string, Doc>
    /** The paths handed to readJson so far, oldest first. */
    ghost var readLog: seq<string>

    constructor (databasePath: string)
      ensures this.databasePath == databasePath && cache == map[] && readLog == []
    {
      this.databasePath := databasePath;
      cache := map[];
      readLog := [];
    }

    /** The memoised read every getter performs. */
    method Fetch(disk: Disk, key: string, path: string) returns (data: Option<Doc>)
      modifies this
      ensures data == Lookup(old(cache), disk, key, path)
      ensures cache == Remember(old(cache), key, data)
      ensures readLog == old(readLog) + (if key in old(cache) then [] else [path])
      ensures forall k :: k in old(cache) ==> k in cache && cache[k] == old(cache)[k]
    {
      if key in cache {
        return Some(cache[key]);
      }
      data := ReadJson(disk, path);
      readLog := readLog + [path];
      if data.Some? {
        cache := cache[key := data.value];
      }
    }

    method GetPhpChanges(disk: Disk, fromVersion: string, toVersion: string) returns (data: Option<Doc>)
      modifies this
      ensures var key := PhpChangesKey(fromVersion, toVersion);
        data == Lookup(old(cache), disk, key, PhpChangesPath(databasePath, fromVersion, toVersion)) &&
        cache == Remember(old(cache), key, data)
      ensures GrewByPhpKeys(old(cache), cache)
    {
      assert PhpChangesKey(fromVersion, toVersion)[..4] == "php_";
      assert IsPhpKey(PhpChangesKey(fromVersion, toVersion));
      data := Fetch(disk, PhpChangesKey(fromVersion, toVersion), PhpChangesPath(databasePath, fromVersion, toVersion));
    }

    method GetPlatformDeprecated(disk: Disk, platform: string) returns (data: Option<Doc>)
      modifies this
      ensures var key := PlatformDeprecatedKey(platform);
        data == Lookup(old(cache), disk, key, PlatformDeprecatedPath(databasePath, platform)) &&
        cache == Remember(old(cache), key, data)
    {
      data := Fetch(disk, PlatformDeprecatedKey(platform), PlatformDeprecatedPath(databasePath, platform));
    }

    method GetPlatformMetadata(disk: Disk, platform: string) returns (data: Option<Doc>)
      modifies this
      ensures var key := PlatformMetadataKey(platform);
        data == Lookup(old(cache), disk, key, PlatformMetadataPath(databasePath, platform)) &&
        cache == Remember(old(cache), key, data)
    {
      data := Fetch(disk, PlatformMetadataKey(platform), PlatformMetadataPath(databasePath, platform));
    }

    method GetPlatformVersionChanges(disk: Disk, platform: string, fromVersion: string, toVersion: string)
      returns (data: Option<Doc>)
      modifies this
      ensures var key := PlatformVersionKey(platform, fromVersion, toVersion);
        data == Lookup(old(cache), disk, key, PlatformVersionPath(databasePath, platform, fromVersion, toVersion)) &&
        cache == Remember(old(cache), key, data)
    {
      data := Fetch(disk, PlatformVersionKey(platform, fromVersion, toVersion),
                    PlatformVersionPath(databasePath, platform, fromVersion, toVersion));
    }

    method GetServerConfigRules(disk: Disk, from: string, to: string) returns (data: Option<Doc>)
      modifies this
      ensures var key := ServerConfigKey(from, to);
        data == Lookup(old(cache), disk, key, ServerConfigPath(databasePath, from, to)) &&
        cache == Remember(old(cache), key, data)
    {
      data := Fetch(disk, ServerConfigKey(from, to), ServerConfigPath(databasePath, from, to));
    }

    /** getAllPhpChanges: the four lists, each the in-order concatenation of
        that list over the hops of the range; the cache keeps every entry it
        had. */
    method GetAllPhpChanges(disk: Disk, fromVersion: string, toVersion: string) returns (allChanges: Changes)
      modifies this
      ensures allChanges == AllPhpChanges(old(cache), disk, databasePath, fromVersion, toVersion)
      ensures cache == AllPhpCache(old(cache), disk, databasePath, fromVersion, toVersion)
      ensures GrewByPhpKeys(old(cache), cache)
    {
      allChanges := NoChanges;
      var versions := PhpVersions;
      var fromIndex := SearchVersion(fromVersion, versions);
      var toIndex := SearchVersion(toVersion, versions);
      AllPhpChangesCases(cache, disk, databasePath, fromVersion, toVersion);
      if fromIndex.None? || toIndex.None? || fromIndex.value >= toIndex.value {
        GrewByPhpKeysReflexive(cache);
        return;
      }
      ghost var before := cache;
      allChanges := ComposeHops(disk, fromIndex.value, toIndex.value);
      HopsDone(before, cache, allChanges, disk, databasePath, fromIndex.value, toIndex.value);
    }

    /** The loop of getAllPhpChanges over the hops lo .. hi - 1: each hop
        read through the cache the earlier hops left and merged in turn. */
    method ComposeHops(disk: Disk, lo: nat, hi: nat) returns (allChanges: Changes)
      requires lo <= hi < |PhpVersions|
      modifies this
      ensures cache == CacheAfter(old(cache), disk, databasePath, lo, hi)
      ensures allChanges == ChangesAfter(old(cache), disk, databasePath, lo, hi)
    {
      allChanges := NoChanges;
      for i := lo to hi
        invariant cache == CacheAfter(old(cache), disk, databasePath, lo, i)
        invariant allChanges == ChangesAfter(old(cache), disk, databasePath, lo, i)
      {
        var changes := GetPhpChanges(disk, PhpVersions[i], PhpVersions[i + 1]);
        allChanges := MergeDoc(allChanges, changes);
      }
    }

    /** clearCache */
    method ClearCache()
      modifies this
      ensures cache == map[] && readLog == old(readLog)
    {
      cache := map[];
    }

    /** getAvailablePhpVersions: the same progression getAllPhpChanges walks. */
    method GetAvailablePhpVersions() returns (versions: seq<string>)
      ensures versions == PhpVersions
      ensures forall i, j :: 0 <= i < j < |versions| ==> !LooseEquals(versions[i], versions[j])
    {
      versions := PhpVersions;
      forall i, j | 0 <= i < j < |versions|
        ensures !LooseEquals(versions[i], versions[j])
      {
        KnownVersionsDistinct(i, j);
      }
    }

    /** getAvailablePlatforms */
    method GetAvailablePlatforms() returns (platforms: seq<string>)
      ensures platforms == Platforms
    {
      platforms := ["moodle", "wordpress", "magento", "prestashop", "symfony", "laravel", "generic"];
    }
  }
}
