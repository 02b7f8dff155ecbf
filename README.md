# PHP migration analyzer — a verified Dafny model

This project models the core of a PHP migration analyzer in Dafny. The analyzer
scans a PHP code base and reports what breaks when it moves from one PHP version
to another or to another hosting platform. It also converts Apache
configuration for other web servers.

What is modelled, one module per source class:

- **Rule database** (`DatabaseManager`). Per-version change documents are read
  through a cache field. `getAllPhpChanges` composes the documents of every
  minor-version hop between two versions, and the cache after a scan is stated
  exactly.
- **Version analysis** (`PhpVersionAnalyzer`, `Rules`). Three rule lists are
  checked: removed_functions, deprecated_features and behavior_changes. A
  removed function is matched against the extracted calls and then by its
  regex against the file's lines. The other two are matched by regex only.
  Class usages are extracted but no rule reads them. Deduplication applies only
  to regex match lines of a removed function: a match line is skipped when that
  rule already reported an issue on it. The call-based pass reports every
  matching call, even two on one line.
- **Structural extraction** (`Ast`, `FunctionCallExtractor`,
  `ClassUsageExtractor`). The visitors walk the syntax tree in pre-order and
  append records to their fields. `getUniqueFunctionNames`,
  `getUniqueClassNames` and the by-name filters are covered too.
- **Platform analysis** (`PlatformAnalyzer`) and the **application driver**
  (`Application`): the issue summary by severity and category, and the effort
  estimate.
- **Apache pipeline**. `ApacheParser` sorts directives into buckets and
  records a warning for each Apache 2.2 access directive. Its issue list is
  reset on every parse and stays empty. `NginxGenerator` and `FrankenPHPGenerator`
  generate configs, `AccessPatterns` covers access directives, and
  `ConfigConverter` and `ServerConfigAnalyzer` hold the two Apache 2.2 → 2.4
  upgraders.
- **Utilities**: `Config` (dotted keys), `Container` (run-once resolvers),
  `Helpers`, `VersionComparator`, `FileScanner`, `CodeScanner`,
  `DependencyChecker` (composer.json), `PluginDetector` (Moodle, WordPress,
  Magento, PrestaShop, and composer packages for Symfony and Laravel) and `Logger` (level filtering).
- **Shared modules**: `Text`, a model of the PHP string functions the code
  uses (`trim`, `explode`, `str_replace`, `strtolower`, `(int)` casts on leading digits, loose
  `==`), and `Seqs`, `Sorting` and `Wrappers`.

The model treats the outside world as inputs:

- Regular-expression matching is an oracle that returns match offsets
  (`Rules.Matcher`) or capture groups (`ApacheParser.Captures`).
- The file system is a value: a directory listing, a glob table and file
  contents.
- JSON decoding is a decoder parameter.
- The parsed syntax tree is an input.

Methods carry the source's loops and field updates. Each is proved against a
specification function, and lemmas prove the properties the source documents
about that function.

## Model

| member | source | states |
|---|---|---|
| Rules.FieldOr | src/Analyzer/PHPVersionAnalyzer.php:143 | `$rule[$key] ?? $default`: the rule's value when the key is set, the default otherwise |
| Rules.FieldOpt | src/Analyzer/PHPVersionAnalyzer.php:149-151 | `$rule[$key] ?? null`: present exactly when the key is set, and then the rule's value |
| Rules.ListOr | src/Analyzer/PHPVersionAnalyzer.php:101 | `$changes[$key] ?? []`: the stored list when the key is present, the empty list otherwise |
| Rules.Pattern | src/Analyzer/PHPVersionAnalyzer.php:158 | the pattern is the rule's regex wrapped as `'/' . regex . '/i'` (three characters longer, '/' first, "/i" last) |
| Rules.RelativePathOf | src/Analyzer/PHPVersionAnalyzer.php:60 | a file without 'relative_path' reports its path instead |
| Rules.StampFile | src/Analyzer/PHPVersionAnalyzer.php:58-61 | stamping adds exactly the keys 'file' (the path) and 'relative_path' and leaves every other field of the issue as it was |
| Rules.FileLines | src/Analyzer/PHPVersionAnalyzer.php:78 | `file(..., FILE_IGNORE_NEW_LINES)` yields one line per "\n" plus one for an unterminated last line |
| Rules.StripEach | src/Analyzer/PHPVersionAnalyzer.php:78 | each returned line is its piece with a trailing "\r" dropped, piece for piece |
| Rules.SplitLastEmpty | src/Analyzer/PHPVersionAnalyzer.php:78 | the last piece of a split is empty exactly when the content is empty or ends with the separator (why `file()` yields no extra empty line) |
| Rules.LineOf | src/Analyzer/PHPVersionAnalyzer.php:161 | `substr_count($content, "\n", 0, $offset) + 1` lies between 1 and the number of newlines plus one |
| Rules.MatchLines | src/Analyzer/PHPVersionAnalyzer.php:159-161 | one line per match offset, in match order, each the LineOf its offset |
| Rules.CodeAt | src/Analyzer/PHPVersionAnalyzer.php:147 | `$lines[$lineNumber - 1] ?? ''`: the line when it exists, '' past either end |
| Rules.MatchLineInFile | src/Analyzer/PHPVersionAnalyzer.php:158-161 | a match inside the content falls on a line `file()` returned, so its code is never the '' fallback |
| Rules.MatchLinesAt | src/Analyzer/PHPVersionAnalyzer.php:159-161 | the i-th match line is the line of the i-th offset |
| Rules.Located | src/Analyzer/PHPVersionAnalyzer.php:146-148 | an issue placed on a line keeps its type and reports that line |
| Rules.IssuesOn | src/Analyzer/PHPVersionAnalyzer.php:159-186 | one issue per reported line |
| Rules.IssuesOnSnoc | src/Analyzer/PHPVersionAnalyzer.php:140 | appending an issue for one more line adds it at the end (`$issues[] = ...`) |
| Rules.IssuesOnLines | src/Analyzer/PHPVersionAnalyzer.php:146 | the i-th issue sits on the i-th line and has the rule's type |
| Rules.IssuesOnAt | src/Analyzer/PHPVersionAnalyzer.php:173-185 | the i-th issue is the rule's issue on the i-th line |
| Rules.IssuesOnMembers | src/Analyzer/PHPVersionAnalyzer.php:173-185 | every issue has the rule's type and sits on one of the given lines |
| Rules.ConcatMapSnoc | src/Analyzer/PHPVersionAnalyzer.php:101-106 | `array_merge` of one more rule's issues appends them at the end |
| Rules.ConcatMapAppend | src/Analyzer/PHPVersionAnalyzer.php:101-106 | the issues of two rule lists put together are the two results put together |
| Rules.ConcatMapElements | src/Analyzer/PHPVersionAnalyzer.php:101-106 | an issue is collected exactly when some rule of the list raises it |
| Rules.ConcatMapSplit | src/Analyzer/PHPVersionAnalyzer.php:101-106 | the k-th rule's issues sit, all of them, between those of the rules before and after it |
| Rules.ConcatMapMiddle | src/Analyzer/PHPVersionAnalyzer.php:101-106 | an element between two lists adds its own issues between theirs |
| PhpVersionAnalyzer.Template | src/Analyzer/PHPVersionAnalyzer.php:140-152 | the rule's issue has the type of its check ('removed_function', 'deprecated_feature', 'behavior_change') |
| PhpVersionAnalyzer.IssueFor | src/Analyzer/PHPVersionAnalyzer.php:140-152 | the issue a rule raises on a line has the check's type and reports that line |
| PhpVersionAnalyzer.IssueForFields | src/Analyzer/PHPVersionAnalyzer.php:140-152 | every issue is 'php_compatibility', its code is the line's text and its snippet the two-line context; severity is the rule's or the check's default; removed-function titles name the function; behaviour changes carry 'recommendation', the other two 'replacement', 'example_old' and 'example_new' |
| PhpVersionAnalyzer.StructuralLines | src/Analyzer/PHPVersionAnalyzer.php:136-154 | one line per call whose name equals the removed function's ignoring ASCII case (strcasecmp), and a line is reported exactly when such a call is on it |
| PhpVersionAnalyzer.SameLineCallsBothReported | src/Analyzer/PHPVersionAnalyzer.php:136-154 | the structural pass does not deduplicate: two matching calls on one line give two issues |
| PhpVersionAnalyzer.DedupLines | src/Analyzer/PHPVersionAnalyzer.php:163-172 | a regex match line is added exactly when no issue of the same rule is already on that line; the added lines are distinct |
| PhpVersionAnalyzer.StructuralLinesSnoc | src/Analyzer/PHPVersionAnalyzer.php:136-154 | one more call adds its line exactly when its name matches |
| PhpVersionAnalyzer.DedupLinesSnoc | src/Analyzer/PHPVersionAnalyzer.php:163-172 | one more match line is added unless it is already reported |
| PhpVersionAnalyzer.RemovedLinesShape | src/Analyzer/PHPVersionAnalyzer.php:130-192 | every structural match is reported first and in call order; the regex lines after them are distinct and new; every regex match line is reported when the rule has a non-empty regex |
| PhpVersionAnalyzer.RegexLines | src/Analyzer/PHPVersionAnalyzer.php:201-224 | no issue without a 'regex' key; otherwise one line per match, each the line of its offset |
| PhpVersionAnalyzer.CategoryIssuesSnoc | src/Analyzer/PHPVersionAnalyzer.php:101-106 | one more rule appends its issues |
| PhpVersionAnalyzer.CategoryIssuesKinds | src/Analyzer/PHPVersionAnalyzer.php:101-122 | every issue of a category has that category's type and is raised by one of its rules |
| PhpVersionAnalyzer.NoCrossRuleSuppression | src/Analyzer/PHPVersionAnalyzer.php:101-106 | rules never suppress one another: deduplication stays inside one rule, so each rule's issues appear whole between those of its neighbours |
| PhpVersionAnalyzer.FileIssues | src/Analyzer/PHPVersionAnalyzer.php:81-86 | a file whose AST is null yields no issues |
| PhpVersionAnalyzer.CategoryRank | src/Analyzer/PHPVersionAnalyzer.php:100-122 | a check's rank is the rank of the issue type it produces |
| PhpVersionAnalyzer.CategoryIssuesRank | src/Analyzer/PHPVersionAnalyzer.php:100-122 | every issue of one check has that check's rank |
| PhpVersionAnalyzer.FileIssuesGrouped | src/Analyzer/PHPVersionAnalyzer.php:100-124 | a file's issues come grouped by check (removed, then deprecated, then behaviour), not sorted by line |
| PhpVersionAnalyzer.RanksInOrder | src/Analyzer/PHPVersionAnalyzer.php:100-124 | three runs of ranks 0, 1 and 2 put end to end are ordered by rank |
| PhpVersionAnalyzer.StampAll | src/Analyzer/PHPVersionAnalyzer.php:58-62 | stamping keeps the number of a file's issues |
| PhpVersionAnalyzer.StampAllSnoc | src/Analyzer/PHPVersionAnalyzer.php:58-62 | one more issue is stamped and appended at the end |
| PhpVersionAnalyzer.StampAllAt | src/Analyzer/PHPVersionAnalyzer.php:58-62 | the i-th stamped issue is the i-th issue with 'file' and 'relative_path' added |
| PhpVersionAnalyzer.AnalyzeAllSnoc | src/Analyzer/PHPVersionAnalyzer.php:54-63 | one more file appends its stamped issues |
| PhpVersionAnalyzer.StampAllMembers | src/Analyzer/PHPVersionAnalyzer.php:58-62 | every stamped issue is an issue of the file with the two keys added |
| PhpVersionAnalyzer.AnalyzeAllStamped | src/Analyzer/PHPVersionAnalyzer.php:54-63 | every issue analyze returns carries 'file' and 'relative_path' of a file in the list and is one of that file's issues |
| PhpVersionAnalyzer.UnparsableFileSkipped | src/Analyzer/PHPVersionAnalyzer.php:81-86 | a file that does not parse adds nothing, wherever it sits in the list |
| PhpVersionAnalyzer.CheckRemovedFunction | src/Analyzer/PHPVersionAnalyzer.php:130-192 | returns exactly the removed-function issues of the rule: structural lines, then the deduplicated regex lines |
| PhpVersionAnalyzer.StructuralIssues | src/Analyzer/PHPVersionAnalyzer.php:136-154 | the loop over the calls yields an issue for each matching call, in call order |
| PhpVersionAnalyzer.AddMatchIssues | src/Analyzer/PHPVersionAnalyzer.php:159-187 | the loop over the matches appends an issue for each match line not yet reported |
| PhpVersionAnalyzer.AlreadyAdded | src/Analyzer/PHPVersionAnalyzer.php:164-170 | true exactly when some issue already reports that line |
| PhpVersionAnalyzer.MatchIssues | src/Analyzer/PHPVersionAnalyzer.php:205-224 | one issue per match, on the match's line, in match order |
| PhpVersionAnalyzer.CheckDeprecatedFeature | src/Analyzer/PHPVersionAnalyzer.php:197-227 | returns exactly the deprecated-feature issues of the rule (none without 'regex') |
| PhpVersionAnalyzer.CheckBehaviorChange | src/Analyzer/PHPVersionAnalyzer.php:232-260 | returns exactly the behaviour-change issues of the rule (none without 'regex') |
| PhpVersionAnalyzer.AnalyzeFile | src/Analyzer/PHPVersionAnalyzer.php:73-125 | returns the file's issues: nothing for an unparsable file, else the three checks in order |
| PhpVersionAnalyzer.CheckCategory | src/Analyzer/PHPVersionAnalyzer.php:101-122 | one of the three loops returns the concatenated issues of every rule of the list, in rule order |
| PhpVersionAnalyzer.RegexRuleIgnoresCalls | src/Analyzer/PHPVersionAnalyzer.php:197-260 | the deprecated and behaviour checks do not depend on the extracted calls |
| PhpVersionAnalyzer.Analyze | src/Analyzer/PHPVersionAnalyzer.php:39-68 | returns the stamped issues of every file under the rule lists composed for the version range; the database cache afterwards is the one the composition leaves, grown only by PHP keys |
| PhpVersionAnalyzer.AnalyzeFiles | src/Analyzer/PHPVersionAnalyzer.php:54-63 | the loop over the files returns their stamped issues in file order |
| PhpVersionAnalyzer.StampIssues | src/Analyzer/PHPVersionAnalyzer.php:58-62 | the inner loop stamps each issue of the file, in order |
| PhpVersionAnalyzer.ChangesNeverEmpty | src/Analyzer/PHPVersionAnalyzer.php:46-51 | the composed changes always hold four keys, so the `empty($changes)` early return is never taken |
| Ast.PreOrder | src/Parser/PHPParser.php:61-67 | the traverser visits every node, parents before children, so at least the roots |
| Ast.PreOrderVisitsRoots | src/Parser/PHPParser.php:61-67 | every top-level statement is visited |
| Ast.NamesOf | src/Parser/ClassUsageExtractor.php:64-69 | of a list of class expressions only the static `Name`s count, and a name is kept exactly when it is written as a `Name` |
| Ast.NamesOfAppend | src/Parser/ClassUsageExtractor.php:73-85 | the names of two slot lists one after the other are the two name lists one after the other |
| Ast.RecordsFor | src/Parser/ClassUsageExtractor.php:64-69 | one record per static name, in order, each with the given type, line and file |
| Ast.Unique | src/Parser/FunctionCallExtractor.php:92 | `array_unique`: the same names, each once |
| Ast.WithName | src/Parser/FunctionCallExtractor.php:100-102 | `array_filter` on `=== $name`: a record is kept exactly when it has that name |
| Ast.WithNameCounts | src/Parser/FunctionCallExtractor.php:100-102 | each record with that name is kept as often as it occurs, and no other record is kept |
| Ast.WithNameAppend | src/Parser/FunctionCallExtractor.php:100-102 | filtering a concatenation filters each part and keeps their order, so the kept records stay in their original order |
| Ast.WithNameSingle | src/Parser/FunctionCallExtractor.php:100-102 | one record is kept when it has the name and dropped otherwise |
| FunctionCallExtractor.CallsOf | src/Parser/FunctionCallExtractor.php:28-60 | a function call is recorded only with a static name; a method call under its bare name; a static call as "Class::method" when the class is a non-empty Name, else the bare method; any other node records nothing; at most one record, on the node's line, in the current file |
| FunctionCallExtractor.CallsIn | src/Parser/PHPParser.php:61-67 | every record of a traversal belongs to the current file |
| FunctionCallExtractor.CallsInAppend | src/Parser/PHPParser.php:61-67 | the records of two node lists visited one after the other are the two record lists one after the other |
| FunctionCallExtractor.CallsInLines | src/Parser/FunctionCallExtractor.php:65-73 | every record's line is the start line of some visited node |
| FunctionCallExtractor.FunctionCallExtractor.SetCurrentFile | src/Parser/FunctionCallExtractor.php:19-23 | switching files sets the file and clears the calls |
| FunctionCallExtractor.FunctionCallExtractor.AddFunctionCall | src/Parser/FunctionCallExtractor.php:65-73 | appends one record with the name, type, node line and current file |
| FunctionCallExtractor.FunctionCallExtractor.EnterNode | src/Parser/FunctionCallExtractor.php:28-60 | appends exactly CallsOf the node |
| FunctionCallExtractor.FunctionCallExtractor.Traverse | src/Parser/PHPParser.php:61-67 | a traversal appends the records of every node in visiting order |
| FunctionCallExtractor.FunctionCallExtractor.GetFunctionCalls | src/Parser/FunctionCallExtractor.php:78-81 | the recorded calls, all of them in the current file |
| FunctionCallExtractor.FunctionCallExtractor.GetUniqueFunctionNames | src/Parser/FunctionCallExtractor.php:86-93 | exactly the names of the recorded calls, without repeats |
| FunctionCallExtractor.FunctionCallExtractor.GetCallsByName | src/Parser/FunctionCallExtractor.php:98-103 | exactly the recorded calls with that name (case-sensitive), each as often as it was recorded |
| FunctionCallExtractor.FunctionCallExtractor.Reset | src/Parser/FunctionCallExtractor.php:108-112 | clears the calls and the current file |
| FunctionCallExtractor.ExtractCalls | src/Analyzer/PHPVersionAnalyzer.php:89-92 | a fresh extractor set to the file and run over the AST returns the records of every visited node |
| ClassUsageExtractor.UsagesOf | src/Parser/ClassUsageExtractor.php:28-109 | every record of a node is on the node's line and in the current file |
| ClassUsageExtractor.UsagesOfSlots | src/Parser/ClassUsageExtractor.php:28-109 | a node yields one record per static `Name` among its class positions, in position order, and nothing for dynamic class expressions |
| ClassUsageExtractor.TwoRecordLists | src/Parser/ClassUsageExtractor.php:73-85 | a class's 'extends' record followed by its 'implements' records names the static names of parent and interfaces in order |
| ClassUsageExtractor.CallsRecordNothing | src/Parser/ClassUsageExtractor.php:28-109 | call nodes are not class usages |
| ClassUsageExtractor.UsagesIn | src/Parser/PHPParser.php:61-67 | every record of a traversal belongs to the current file |
| ClassUsageExtractor.UsagesInStep | src/Parser/PHPParser.php:61-67 | visiting one more node appends its records |
| ClassUsageExtractor.ClassDeclRecords | src/Parser/ClassUsageExtractor.php:73-85 | a class declaration records its parent first (as 'extends') when it is a Name, then one 'implements' per static interface, all on its line |
| ClassUsageExtractor.RecordsForOne | src/Parser/ClassUsageExtractor.php:31-60 | a single class position gives one record when it is a Name, none otherwise |
| ClassUsageExtractor.ClassUsageExtractor.SetCurrentFile | src/Parser/ClassUsageExtractor.php:19-23 | switching files sets the file and clears the usages |
| ClassUsageExtractor.ClassUsageExtractor.AddClassUsage | src/Parser/ClassUsageExtractor.php:114-122 | appends one record with the name, type, node line and current file |
| ClassUsageExtractor.ClassUsageExtractor.AddEach | src/Parser/ClassUsageExtractor.php:64-69 | the loop over a list of class positions appends one record per static name |
| ClassUsageExtractor.ClassUsageExtractor.EnterNode | src/Parser/ClassUsageExtractor.php:28-109 | appends exactly UsagesOf the node |
| ClassUsageExtractor.ClassUsageExtractor.AddClassDecl | src/Parser/ClassUsageExtractor.php:73-86 | appends the parent's 'extends' record, then the interfaces' 'implements' records |
| ClassUsageExtractor.ClassUsageExtractor.Traverse | src/Parser/PHPParser.php:61-67 | a traversal appends the records of every node in visiting order |
| ClassUsageExtractor.ClassUsageExtractor.GetClassUsages | src/Parser/ClassUsageExtractor.php:127-130 | the recorded usages, all of them in the current file |
| ClassUsageExtractor.ClassUsageExtractor.GetUniqueClassNames | src/Parser/ClassUsageExtractor.php:135-142 | exactly the recorded class names, without repeats |
| ClassUsageExtractor.ClassUsageExtractor.GetUsagesByName | src/Parser/ClassUsageExtractor.php:147-152 | exactly the recorded usages with that name (case-sensitive), each as often as it was recorded |
| ClassUsageExtractor.ClassUsageExtractor.Reset | src/Parser/ClassUsageExtractor.php:157-161 | clears the usages and the current file |
| ClassUsageExtractor.ExtractUsages | src/Analyzer/PHPVersionAnalyzer.php:95-98 | a fresh extractor set to the file and run over the AST returns the records of every visited node |
| DatabaseManager.ReadJson | src/Database/DatabaseManager.php:37 | `Helpers::readJson` yields a document exactly when the disk holds one at that path |
| DatabaseManager.Lookup | src/Database/DatabaseManager.php:28-43 | a cached key answers from the cache without reading; otherwise the file is read |
| DatabaseManager.Remember | src/Database/DatabaseManager.php:39-41 | only a non-null result is cached; null leaves the cache as it was |
| DatabaseManager.LookupMemoised | src/Database/DatabaseManager.php:28-43 | a second lookup returns the first non-null result even if the disk changed meanwhile; a null result is not cached, so the next lookup reads the disk again |
| DatabaseManager.RememberOtherKeys | src/Database/DatabaseManager.php:39-41 | remembering one key leaves every other key's presence and value as they were |
| DatabaseManager.GrewByPhpKeysReflexive | src/Database/DatabaseManager.php:26-44 | a cache grown by no reads has grown only by "php_" keys |
| DatabaseManager.GrewByPhpKeysTransitive | src/Database/DatabaseManager.php:69-82 | growth by "php_" keys composes over successive reads |
| DatabaseManager.PlatformLookupUnaffected | src/Database/DatabaseManager.php:90-107 | a cache grown only by "php_" keys answers a platform_..._deprecated lookup exactly as before |
| DatabaseManager.SearchVersion | src/Database/DatabaseManager.php:61-62 | `array_search` with loose `==`: the first index whose entry compares loosely equal, or none when no entry does |
| DatabaseManager.PhpVersionValue | src/Database/DatabaseManager.php:59 | each known version reads as a one-decimal number (7.2 is 72 tenths, and so on) |
| DatabaseManager.KnownVersionsDistinct | src/Database/DatabaseManager.php:59 | no two known versions compare loosely equal |
| DatabaseManager.TenthsIncrease | src/Database/DatabaseManager.php:59 | the version list is strictly increasing |
| DatabaseManager.TenthsStep | src/Database/DatabaseManager.php:59 | each known version is below the next one |
| DatabaseManager.SearchVersionAt | src/Database/DatabaseManager.php:61-62 | a value equal to entry i and to none before it is found at i |
| DatabaseManager.SearchKnownVersion | src/Database/DatabaseManager.php:61-62 | every known version is found at its own index |
| DatabaseManager.HopKeysDistinct | src/Database/DatabaseManager.php:28 | different hops use different cache keys |
| DatabaseManager.HopDocs | src/Database/DatabaseManager.php:69-74 | one document (or null) per hop of the range |
| DatabaseManager.HopDocsSnoc | src/Database/DatabaseManager.php:69-74 | one more hop appends its document |
| DatabaseManager.Contribution | src/Database/DatabaseManager.php:75-80 | a null hop, or one without the key, contributes nothing to that key |
| DatabaseManager.Compose | src/Database/DatabaseManager.php:51-84 | the result has exactly the four change keys, each the concatenation of that key's lists over the hops in order |
| DatabaseManager.AllPhpChangesCases | src/Database/DatabaseManager.php:61-84 | an unknown or non-increasing range gives the four empty lists; otherwise the composition of the range's hops |
| DatabaseManager.ComposeNothing | src/Database/DatabaseManager.php:51-56 | composing no hops gives the initial four empty lists |
| DatabaseManager.AllPhpChanges | src/Database/DatabaseManager.php:49-85 | always the four change keys; all empty when either version is not in the list or from is not before to, else the composed hops |
| DatabaseManager.ConcatKeySplit | src/Database/DatabaseManager.php:69-82 | the lists of two hop runs one after the other are the two concatenations one after the other |
| DatabaseManager.ConcatKeyAppend | src/Database/DatabaseManager.php:78 | one more hop appends its list for the key (`array_merge`) |
| DatabaseManager.SameChanges | src/Database/DatabaseManager.php:51-56 | two change maps with the four keys and equal lists are equal |
| DatabaseManager.NullHopSkipped | src/Database/DatabaseManager.php:75 | a hop whose file is missing or invalid is skipped, the others still contribute |
| DatabaseManager.MissingKeyHop | src/Database/DatabaseManager.php:77-79 | a hop without a key contributes nothing to it, and what it has to the others |
| DatabaseManager.HopDocsSplit | src/Database/DatabaseManager.php:69-74 | the hops of a range split at any middle version into the two sub-ranges |
| DatabaseManager.AllPhpChangesSplit | src/Database/DatabaseManager.php:49-85 | the changes of i to j are those of i to m followed by those of m to j, for any known m between |
| DatabaseManager.AllPhpChangesKnown | src/Database/DatabaseManager.php:61-82 | for known versions i before j each key's list is the concatenation over hops i .. j-1 |
| DatabaseManager.AllPhpChangesBackwards | src/Database/DatabaseManager.php:64-66 | a range that does not go forward yields empty lists |
| DatabaseManager.AllPhpChangesUnknown | src/Database/DatabaseManager.php:61-66 | a target version not in the list yields empty lists |
| DatabaseManager.UnknownVersionNotFound | src/Database/DatabaseManager.php:59-62 | a one-decimal version other than the seven known ones is not found |
| DatabaseManager.ComposeStep | src/Database/DatabaseManager.php:76-80 | merging one more hop's lists gives the composition of the longer run |
| DatabaseManager.LaterHopsAgreeTransitive | src/Database/DatabaseManager.php:69-82 | agreement on later hops composes |
| DatabaseManager.LaterHopsUnchanged | src/Database/DatabaseManager.php:69-82 | fetching one hop does not change what later hops read |
| DatabaseManager.MergeHop | src/Database/DatabaseManager.php:76-80 | the inner loop appends, for each of the four keys, the hop's list under it |
| DatabaseManager.Merged | src/Database/DatabaseManager.php:75-81 | merging keeps the four keys |
| DatabaseManager.MergeDoc | src/Database/DatabaseManager.php:75-81 | a null hop leaves the lists alone; a document is merged key by key |
| DatabaseManager.KeyIndex | src/Database/DatabaseManager.php:76 | each change key has its place in the fixed key list |
| DatabaseManager.MergedCompose | src/Database/DatabaseManager.php:75-81 | merging a hop into a composition gives the composition with that hop appended |
| DatabaseManager.ChangesAfter | src/Database/DatabaseManager.php:69-82 | the lists after any number of hops keep the four keys |
| DatabaseManager.CacheAfterStep | src/Database/DatabaseManager.php:73 | each hop's lookup remembers its non-null result |
| DatabaseManager.CacheAfterAgrees | src/Database/DatabaseManager.php:69-82 | hops not yet fetched read the same documents as from the original cache |
| DatabaseManager.CacheAfterReadsHop | src/Database/DatabaseManager.php:73 | the hop fetched next reads what it would have read from the original cache |
| DatabaseManager.CacheAfterGrows | src/Database/DatabaseManager.php:69-82 | the loop only adds "php_" keys to the cache |
| DatabaseManager.HopKeyIsPhp | src/Database/DatabaseManager.php:28 | every hop key starts "php_" |
| DatabaseManager.HopRememberGrows | src/Database/DatabaseManager.php:39-41 | one more hop adds at most a "php_" key |
| DatabaseManager.ChangesAfterCompose | src/Database/DatabaseManager.php:69-82 | reading each hop through the then-current cache composes exactly the documents of the original cache |
| DatabaseManager.ChangesAfterStart | src/Database/DatabaseManager.php:51-56 | before any hop the lists are the composition of no hops |
| DatabaseManager.ChangesAfterStep | src/Database/DatabaseManager.php:69-82 | each further hop keeps the lists equal to the composition so far |
| DatabaseManager.ChangesAfterUnfold | src/Database/DatabaseManager.php:73-81 | hop i merges the document read through the cache left by hops before it |
| DatabaseManager.HopsDone | src/Database/DatabaseManager.php:84 | after the loop the lists are the composition of the range's hops and the cache grew only by "php_" keys |
| DatabaseManager.DatabaseManager.constructor | src/Database/DatabaseManager.php:17-21 | a new manager has the configured database path and an empty cache |
| DatabaseManager.DatabaseManager.Fetch | src/Database/DatabaseManager.php:28-43 | the shared getter shape: cached answer or file read, non-null results remembered, the disk read only on a miss, existing entries kept |
| DatabaseManager.DatabaseManager.GetPhpChanges | src/Database/DatabaseManager.php:26-44 | reads `{from}-to-{to}.json` under php-changes/ through key `php_{from}_to_{to}`; grows the cache only by that "php_" key |
| DatabaseManager.DatabaseManager.GetPlatformDeprecated | src/Database/DatabaseManager.php:90-107 | reads platforms/{p}/deprecated-functions.json through key `platform_{p}_deprecated` |
| DatabaseManager.DatabaseManager.GetPlatformMetadata | src/Database/DatabaseManager.php:112-129 | reads platforms/{p}/metadata.json through key `platform_{p}_metadata` |
| DatabaseManager.DatabaseManager.GetPlatformVersionChanges | src/Database/DatabaseManager.php:134-152 | reads platforms/{p}/versions/{from}-to-{to}.json through key `platform_{p}_{from}_to_{to}` |
| DatabaseManager.DatabaseManager.GetServerConfigRules | src/Database/DatabaseManager.php:157-175 | reads server-configs/{from}-to-{to}.json through key `server_{from}_to_{to}` |
| DatabaseManager.DatabaseManager.GetAllPhpChanges | src/Database/DatabaseManager.php:49-85 | returns AllPhpChanges of the old cache; the new cache is the one the hops leave, grown only by "php_" keys |
| DatabaseManager.DatabaseManager.ComposeHops | src/Database/DatabaseManager.php:69-82 | the loop's cache and lists are those after hops lo .. hi-1, each read through the then-current cache |
| DatabaseManager.DatabaseManager.ClearCache | src/Database/DatabaseManager.php:180-183 | empties the cache |
| DatabaseManager.DatabaseManager.GetAvailablePhpVersions | src/Database/DatabaseManager.php:188-191 | the seven known versions, pairwise distinct under loose comparison |
| DatabaseManager.DatabaseManager.GetAvailablePlatforms | src/Database/DatabaseManager.php:196-199 | the seven known platforms |
| PlatformAnalyzer.Description | src/Analyzer/PlatformAnalyzer.php:103-104 | the "deprecated since" sentence, followed by " and removed in X" exactly when the rule sets 'removed_in' |
| PlatformAnalyzer.Template | src/Analyzer/PlatformAnalyzer.php:98-113 | every issue has type 'deprecated_platform_function' |
| PlatformAnalyzer.TemplateFields | src/Analyzer/PlatformAnalyzer.php:98-113 | category 'platform_compatibility', severity the rule's or 'high', title "Deprecated function: name", and the five optional keys with 'removed_in' copied from the rule |
| PlatformAnalyzer.RuleIssuesShape | src/Analyzer/PlatformAnalyzer.php:79-116 | a rule skipped by the version filter or without 'regex' raises nothing; otherwise one issue per match, the i-th on the line of the i-th match |
| PlatformAnalyzer.NoFromVersionKeepsRules | src/Analyzer/PlatformAnalyzer.php:81-90 | without a from-version every rule with a regex is checked |
| PlatformAnalyzer.FileIssueCount | src/Analyzer/PlatformAnalyzer.php:79-118 | a file gets exactly as many issues as the checked rules have matches in it |
| PlatformAnalyzer.RuleIssueCount | src/Analyzer/PlatformAnalyzer.php:93-115 | a checked rule raises one issue per match, an unchecked one none |
| PlatformAnalyzer.Tag | src/Analyzer/PlatformAnalyzer.php:56-60 | tagging adds exactly 'file', 'relative_path' and 'platform' and changes nothing else |
| PlatformAnalyzer.TagAll | src/Analyzer/PlatformAnalyzer.php:56-61 | tagging keeps the number of a file's issues |
| PlatformAnalyzer.TagAllSnoc | src/Analyzer/PlatformAnalyzer.php:56-61 | one more issue is tagged and appended |
| PlatformAnalyzer.TagAllMembers | src/Analyzer/PlatformAnalyzer.php:56-61 | every tagged issue is an issue of the file with the three keys added |
| PlatformAnalyzer.PlatformIssues | src/Analyzer/PlatformAnalyzer.php:42-47 | no data, or an empty document, gives no issues |
| PlatformAnalyzer.PlatformIssuesTagged | src/Analyzer/PlatformAnalyzer.php:49-62 | every issue names the platform and a file of the list, and is one of that file's issues under the 'functions' rules |
| PlatformAnalyzer.FilesInOrder | src/Analyzer/PlatformAnalyzer.php:52-62 | each file's tagged issues sit between those of the files before and after it |
| PlatformAnalyzer.MatchIssues | src/Analyzer/PlatformAnalyzer.php:94-114 | one issue per match, on the match's line, in order |
| PlatformAnalyzer.AnalyzeFile | src/Analyzer/PlatformAnalyzer.php:72-119 | returns the file's issues over the rules in rule order |
| PlatformAnalyzer.CheckRule | src/Analyzer/PlatformAnalyzer.php:80-115 | one rule's issues, after the version filter and the regex test |
| PlatformAnalyzer.TagIssues | src/Analyzer/PlatformAnalyzer.php:56-61 | the inner loop tags each issue of the file, in order |
| PlatformAnalyzer.Analyze | src/Analyzer/PlatformAnalyzer.php:35-67 | returns PlatformIssues of what getPlatformDeprecated reads through the old cache; the new cache is that lookup remembered |
| Application.BumpCount | src/Core/Application.php:258-262 | counting one more issue of a category raises that category's count by one and leaves the others |
| Application.BumpTotal | src/Core/Application.php:258-262 | each issue adds exactly one to the category counts' total |
| Application.BumpKeys | src/Core/Application.php:259-261 | a category first seen is appended at the end of 'by_category'; a known one keeps its place |
| Application.SeverityTally | src/Core/Application.php:242-256 | 'by_severity' always holds exactly the five severities |
| Application.SeverityListSnoc | src/Core/Application.php:252-253 | one more issue adds its severity ('info' when unset) at the end |
| Application.CategoryListSnoc | src/Core/Application.php:252-258 | one more issue adds its category ('other' when unset) at the end |
| Application.SeverityTallyCounts | src/Core/Application.php:252-256 | each severity's count is the number of issues with that severity; other severities are not counted |
| Application.CategoryTallyCounts | src/Core/Application.php:258-262 | each category's count is the number of issues of that category |
| Application.CategoryTallyShape | src/Core/Application.php:249-262 | 'by_category' lists each category that occurs, once, and its counts add up to the number of issues |
| Application.GenerateSummary | src/Core/Application.php:238-266 | the loop returns the total, the severity counts and the category counts of the issues |
| Application.RoundTenths | src/Core/Application.php:286 | `round($hours, 1)`: the nearest tenth, halves away from zero |
| Application.EstimateEffort | src/Core/Application.php:271-287 | the loop returns the rounded sum of count times rate over the five severities, a missing rate counting 1 hour, with the defaults 4, 2, 1, 0.5 and 0.1 when nothing is configured |
| Application.EffortExample | src/Core/Application.php:274-286 | illustration only: 2 critical, 1 high, 3 medium and 5 info issues at the default rates are 13.5 hours |
| Application.WeightedBump | src/Core/Application.php:282-284 | one more issue of a severity adds that severity's rate to the sum |
| Application.SeverityKeysDistinct | src/Core/Application.php:242-248 | the five severities are distinct |
| Application.EffortOfOneMore | src/Core/Application.php:252-284 | one more issue raises the unrounded effort by its severity's rate, and leaves it alone when its severity is not one of the five |
| Application.GetReporter | src/Core/Application.php:301-315 | a reporter exactly for 'html', 'markdown', 'text' and 'json'; any other name fails with "Unknown report format: " and the name |
| Application.GetReporterByName | src/Core/Application.php:301-315 | each reporter is found by its own name |
| Application.PlatformIssuesLast | src/Core/Application.php:155-176 | the PHP issues come first, and every issue after them carries the platform's tag |
| Application.AppendTagged | src/Core/Application.php:163-175 | appending tagged issues keeps the earlier ones in front and the tag on each appended one |
| Application.Analyze | src/Core/Application.php:123-225 | the echoed options with their defaults, the files, the PHP issues (when both PHP versions are given) followed by the platform issues (when a platform other than 'generic' is given), the summary of those issues, the effort only when asked for, and the database cache both analyzers leave |
| Application.PhpStep | src/Core/Application.php:155-164 | the PHP issues when both versions are given, nothing otherwise; the cache grows only by "php_" keys |
| Application.PlatformStep | src/Core/Application.php:166-176 | the platform issues when a platform other than 'generic' is given, nothing otherwise |
| Application.PlatformPartUnaffected | src/Core/Application.php:155-176 | running the PHP analyzer first does not change what the platform analyzer finds |
| Helpers.SnippetLow | src/Utils/Helpers.php:209 | the first line of a snippet is never before line 1 |
| Helpers.SnippetHigh | src/Utils/Helpers.php:210 | the last line of a snippet is never past the file's last line |
| Helpers.SnippetRangeKeys | src/Utils/Helpers.php:212-215 | a snippet's keys are exactly the line numbers lo..hi, each holding its own line |
| Helpers.ExtractCodeSnippet | src/Utils/Helpers.php:207-218 | the loop keys lines max(1, n-c) .. min(count, n+c) by their 1-based numbers, each holding its line; at most 2c+1 lines; nothing for an empty file |
| Helpers.Truncate | src/Utils/Helpers.php:59-66 | a text within the limit is returned as is; a longer one is a prefix of it followed by the suffix, exactly `length` characters long when the limit leaves room for the suffix |
| Helpers.Pluralize | src/Utils/Helpers.php:103-110 | the singular for a count of exactly 1, otherwise the given plural or the singular plus "s" |
| Helpers.GetSeverityColor | src/Utils/Helpers.php:71-82 | the fallback colour "#6c757d" exactly for severities outside the five known ones |
| Helpers.GetSeverityLabel | src/Utils/Helpers.php:87-98 | "Unknown" exactly for unknown severities; a known one is its name with the first letter upper-cased |
| Helpers.CollapseSlashes | src/Utils/Helpers.php:16 | `preg_replace('#/+#', '/')`: no two slashes in a row remain, nothing is emptied, the first character and the presence of a slash are kept |
| Helpers.CollapseKeepsSingleSlashes | src/Utils/Helpers.php:16 | a path without doubled slashes is left as it is |
| Helpers.SanitizePath | src/Utils/Helpers.php:13-18 | the sanitized path has no doubled slash and no trailing slash |
| Helpers.SanitizePathLeavesTraversal | src/Utils/Helpers.php:15 | "..././etc" sanitizes to "../etc": one pass of `str_replace` can join the text around a removed "../" into a new one |
| Helpers.FirstPassLeavesStep | src/Utils/Helpers.php:15 | the "../" pass turns "..././etc" into "../etc" |
| Helpers.FirstPassStep1 | src/Utils/Helpers.php:15 | the pass copies a leading '.' that does not start a match |
| Helpers.FirstPassStep2 | src/Utils/Helpers.php:15 | the pass drops a leading "../" |
| Helpers.FirstPassStep3 | src/Utils/Helpers.php:15 | "./etc" has no "../" to remove |
| Helpers.ReplaceAllCopyHead | src/Utils/Helpers.php:15 | `str_replace` copies a character where no match starts |
| Helpers.ReplaceAllDropHead | src/Utils/Helpers.php:15 | `str_replace` replaces a match at the head and resumes after it |
| Helpers.BackslashPassKeeps | src/Utils/Helpers.php:15 | the "..\" pass leaves "../etc" alone |
| Helpers.RemoveParentSteps | src/Utils/Helpers.php:15 | repeating the removal until none is left leaves no "../" and never lengthens the path |
| Helpers.ReplaceAllShrinks | src/Utils/Helpers.php:15 | a pass over a path with a "../" makes it strictly shorter |
| Helpers.ReplaceAllNoLonger | src/Utils/Helpers.php:15 | replacing by something no longer never lengthens the text |
| Helpers.SanitizePathFixed | src/Utils/Helpers.php:13-18 | sanitizePath as intended: no "../" step, no doubled slash, no trailing slash |
| Helpers.NoParentStepPrefix | src/Utils/Helpers.php:17 | stripping trailing slashes cannot create a "../" |
| Helpers.CollapseKeepsNoParentStep | src/Utils/Helpers.php:16 | collapsing slashes cannot create a "../" |
| Helpers.ReplaceChar | src/Utils/Helpers.php:117 | `str_replace('_', ' ')`: same length, each '_' replaced and every other character kept |
| Helpers.Without | src/Utils/Helpers.php:117 | dropping characters keeps only characters of the input outside the dropped set |
| Helpers.LcFirst | src/Utils/Helpers.php:117 | `lcfirst`: same length, first character lower-cased, the rest unchanged |
| Helpers.SnakeToCamel | src/Utils/Helpers.php:115-118 | the result has no '_' or ' ' and does not start with an upper-case letter |
| Helpers.UcWordsNoUnderscore | src/Utils/Helpers.php:117 | `ucwords` adds no underscore |
| Helpers.LowerUpper | src/Utils/Helpers.php:117 | lower-casing undoes upper-casing |
| Helpers.LowerUcWords | src/Utils/Helpers.php:117 | `ucwords` changes only case |
| Helpers.LowerLcFirst | src/Utils/Helpers.php:117 | `lcfirst` changes only case |
| Helpers.SnakeToCamelLetters | src/Utils/Helpers.php:115-118 | up to case, snakeToCamel is its input with the underscores and spaces dropped |
| Helpers.WithoutReplaced | src/Utils/Helpers.php:117 | turning '_' into ' ' and then dropping ' ' drops both |
| Helpers.LowerWithout | src/Utils/Helpers.php:117 | lower-casing commutes with dropping non-letters |
| Helpers.LowerAppend | src/Utils/Helpers.php:125 | lower-casing distributes over concatenation |
| Helpers.CamelToSnake | src/Utils/Helpers.php:123-126 | the result has no upper-case letter |
| Helpers.CamelToSnakeLetters | src/Utils/Helpers.php:123-126 | camelToSnake only inserts underscores: dropping them gives the lower-cased input |
| Helpers.SplitCamelWithout | src/Utils/Helpers.php:125 | the `preg_replace` step only inserts underscores |
| Helpers.WithoutPair | src/Utils/Helpers.php:125 | dropping the underscore inserted between a lower and an upper letter restores the pair |
| Helpers.WithoutCons | src/Utils/Helpers.php:125 | dropping characters from a string with a known head |
| Helpers.CommonPrefix | src/Utils/Helpers.php:150-152 | the number of leading segments on which both paths agree: they agree up to it and differ right after |
| Helpers.Dots | src/Utils/Helpers.php:157 | `array_pad` with '..': n segments, each ".." |
| Helpers.GetRelativePath | src/Utils/Helpers.php:143-164 | the loop returns one ".." per segment of `from` after the common prefix, then the rest of `to`, joined with '/' |
| Helpers.PrefixGrows | src/Utils/Helpers.php:151-152 | a matching segment extends the common prefix |
| Helpers.RelativeAt | src/Utils/Helpers.php:153-158 | where the walk stops, the result is the remaining ".." steps and the rest of `to` |
| Helpers.CommonPrefixIs | src/Utils/Helpers.php:150-161 | the walk stops at the common prefix |
| Helpers.RelativeToDescendant | src/Utils/Helpers.php:143-164 | from a directory to a path below it, the result is the extra segments |
| Helpers.RelativeToSelf | src/Utils/Helpers.php:143-164 | from a directory to itself, the result is "" |
| VersionComparator.Segments | src/Utils/VersionComparator.php:19 | one numeric segment per dot-separated piece |
| VersionComparator.CompareSegments | src/Utils/VersionComparator.php:19 | -1, 0 or 1, and 0 for equal segment lists |
| VersionComparator.Compare | src/Utils/VersionComparator.php:17-20 | `version_compare` yields -1, 0 or 1 |
| VersionComparator.CompareSegmentsAntisymmetric | src/Utils/VersionComparator.php:17-20 | swapping the segment lists negates the result |
| VersionComparator.CompareSegmentsTransitive | src/Utils/VersionComparator.php:17-20 | the segment order is transitive |
| VersionComparator.CompareAntisymmetric | src/Utils/VersionComparator.php:17-20 | swapping the versions negates the comparison |
| VersionComparator.CompareTransitive | src/Utils/VersionComparator.php:17-20 | the version order is transitive |
| VersionComparator.VersionLeTotalPreorder | src/Utils/VersionComparator.php:64 | the order `usort` sees through `compare` is total and transitive, so sorting by it is well defined |
| VersionComparator.GreaterOrEqualMirrorsLessOrEqual | src/Utils/VersionComparator.php:33-44 | `isGreaterThanOrEqual(a, b)` holds exactly when `isLessThanOrEqual(b, a)` does |
| VersionComparator.IsGreaterThanOrEqual | src/Utils/VersionComparator.php:33-36 | a is at or above b exactly when b compares at or below a; VersionComparator.GreaterOrEqualMirrorsLessOrEqual relates it to isLessThanOrEqual |
| VersionComparator.IsLessThanOrEqual | src/Utils/VersionComparator.php:41-44 | every version is at or below itself, and when a is not at or below b, b is strictly below a |
| VersionComparator.IsBetween | src/Utils/VersionComparator.php:25-28 | only a range whose minimum compares at or below its maximum holds any version; VersionComparator.IsBetweenInclusive shows both bounds lie inside it |
| VersionComparator.BetweenOrdered | src/Utils/VersionComparator.php:25-28 | a version between two bounds puts the lower bound at or below the upper one |
| VersionComparator.IsBetweenInclusive | src/Utils/VersionComparator.php:25-28 | both bounds of a non-empty range lie inside it |
| VersionComparator.InRange | src/Utils/VersionComparator.php:58-62 | exactly the available versions between from and to, inclusive |
| VersionComparator.GetVersionsInRange | src/Utils/VersionComparator.php:54-67 | the versions in range, each with its multiplicity, sorted by `compare` |
| VersionComparator.Normalize | src/Utils/VersionComparator.php:72-78 | trimmed and lower-cased, then a leading "v" is removed, or else a leading "php"; nothing else changes and no upper-case letter remains |
| VersionComparator.GetMajorMinor | src/Utils/VersionComparator.php:83-93 | a prefix of the normalised version |
| VersionComparator.GetMajorMinorSegments | src/Utils/VersionComparator.php:86-90 | with two or more segments, exactly the first two |
| VersionComparator.GetMajorMinorSingle | src/Utils/VersionComparator.php:92 | with a single segment, the normalised version itself |
| VersionComparator.GetNextMinor | src/Utils/VersionComparator.php:98-109 | with two or more segments, exactly two: the same major and the minor's integer value plus one; otherwise the normalised version |
| VersionComparator.GetNextMajor | src/Utils/VersionComparator.php:114-125 | two segments: the major's integer value plus one, then "0" |
| Sorting.Insert | src/Utils/VersionComparator.php:64 | inserting adds exactly the one element |
| Sorting.SortBy | src/Utils/VersionComparator.php:64 | `usort` is a permutation of its input |
| Sorting.InsertSorted | src/Utils/VersionComparator.php:64 | inserting into a sorted list under a total preorder keeps it sorted |
| Sorting.SortBySorted | src/Utils/VersionComparator.php:64 | under a total preorder the result of `usort` is sorted |
| Logger.Rank | src/Utils/Logger.php:17-22 | a level's rank is at most 3, and an unknown level ranks as 'info' (1) |
| Logger.ShouldLog | src/Utils/Logger.php:104-110 | a 'debug' setting lets every message through and an 'error' message always passes; Logger.ShouldLogOrder gives the full order |
| Logger.ShouldLogOrder | src/Utils/Logger.php:104-110 | a 'debug' setting logs everything, 'error' messages always pass, an unknown level on either side behaves as 'info', and 'info' lets through all but 'debug' |
| Logger.Logger.constructor | src/Utils/Logger.php:24-28 | a new logger has the configured enabled flag and level and has written nothing |
| Logger.Logger.Log | src/Utils/Logger.php:77-99 | a disabled logger, or a message ranked below the configured level, writes nothing; otherwise one entry is appended |
| Logger.Logger.Debug | src/Utils/Logger.php:45-48 | a debug message is written only when the level is 'debug' |
| Logger.Logger.Info | src/Utils/Logger.php:53-56 | an info message is written when the level is 'debug', 'info' or unknown |
| Logger.Logger.Warning | src/Utils/Logger.php:61-64 | a warning is written unless the level is 'error' |
| Logger.Logger.Error | src/Utils/Logger.php:69-72 | an error is written whenever logging is enabled |
| Config.Segments | src/Core/Config.php:44 | `explode('.', $key)` always yields at least one segment |
| Config.PlainKeySegments | src/Core/Config.php:83 | a key without a dot is a path of one segment |
| Config.Walk | src/Core/Config.php:45-54 | the walk of no segments is the value itself; a segment below a non-array fails |
| Config.SetPath | src/Core/Config.php:60-76 | the first segment is set, every other top-level key keeps its value, and no other key appears |
| Config.WalkSetPath | src/Core/Config.php:60-76 | after setting a path, walking it gives the value set |
| Config.SetPathOther | src/Core/Config.php:60-76 | every path that is neither a prefix nor an extension of the set path walks as before |
| Config.SetPathIntermediates | src/Core/Config.php:65-73 | every proper prefix of the set path now leads to an array: missing and non-array intermediates are replaced by arrays |
| Config.Config.constructor | src/Core/Config.php:12-15 | the configuration is the given array |
| Config.Config.Get | src/Core/Config.php:42-55 | the default when any segment is missing or an intermediate is not an array; otherwise the value at the end of the walk (a stored null included) |
| Config.Config.Has | src/Core/Config.php:81-94 | a present key has its first segment at the top level, and a key without a dot is present exactly when it is a top-level key (even one holding null) |
| Config.Config.All | src/Core/Config.php:99-102 | the whole configuration |
| Config.Config.Set | src/Core/Config.php:60-76 | the new configuration is the path set; afterwards `has` holds and `get` returns the value whatever the default; paths off the set path are unchanged |
| Container.Resolve | src/Core/Container.php:24-34 | a stored non-null instance is returned without running anything; a name with neither instance nor service fails with "Service … not found in container"; otherwise the resolver runs once and its product is stored and returned; services never change |
| Container.GetMemoised | src/Core/Container.php:26-33 | once a get has produced an object, the next get returns it and runs nothing |
| Container.NullProductReruns | src/Core/Container.php:26-30 | a resolver that returns null is not remembered (`isset` is false for null), so two gets run it twice |
| Container.GetRunsOnce | src/Core/Container.php:26-33 | when the resolver yields an object, any number of gets runs it at most once and leaves the state of the first get |
| Container.Register | src/Core/Container.php:16-19 | registering binds the name to the resolver and leaves the instances alone |
| Container.SetAfterGet | src/Core/Container.php:16-19 | re-registering after a get that produced an object does not change what get returns |
| Container.Put | src/Core/Container.php:47-50 | `instance` stores the value under the name and leaves the services alone |
| Container.PutThenGet | src/Core/Container.php:47-50 | after `instance(n, x)` with x not null, get returns x without running a resolver |
| Container.Forget | src/Core/Container.php:55-59 | after remove the name is neither a service nor an instance; other names are as before |
| Container.RemoveThenGet | src/Core/Container.php:55-59 | get after remove fails with "not found" |
| Container.Container.constructor | src/Core/Container.php:10-11 | a new container has no services and no instances |
| Container.Container.Set | src/Core/Container.php:16-19 | the state becomes the registration of the resolver |
| Container.Container.Get | src/Core/Container.php:24-34 | the state and result are those of Resolve on the old state |
| Container.Container.Has | src/Core/Container.php:39-42 | true exactly when the name has a service or a non-null instance |
| Container.Container.Instance | src/Core/Container.php:47-50 | the state becomes the instance stored |
| Container.Container.Remove | src/Core/Container.php:55-59 | the state becomes the name forgotten |
| AccessPatterns.SkipSpaces | src/ServerConfig/ConfigConverter.php:87 | drops exactly the leading run of PCRE whitespace |
| AccessPatterns.Spaces | src/ServerConfig/ConfigConverter.php:87 | `\s+` matches exactly when the text starts with whitespace, and takes the whole run |
| AccessPatterns.AfterWord | src/ServerConfig/ConfigConverter.php:87 | a word matched ignoring case leaves the text after it |
| AccessPatterns.After | src/ServerConfig/ConfigConverter.php:87-108 | matching a pattern's pieces leaves a suffix of the subject |
| AccessPatterns.AfterAppend | src/ServerConfig/ConfigConverter.php:87-108 | matching two patterns one after the other is matching their concatenation |
| AccessPatterns.WordInitial | src/ServerConfig/ConfigConverter.php:87-108 | a pattern's first word fixes the subject's first letter, ignoring case |
| AccessPatterns.FromAllNonEmpty | src/ServerConfig/ConfigConverter.php:91-95 | only a non-empty line can be a "from all" line |
| AccessPatterns.HostGroup | src/Analyzer/ServerConfigAnalyzer.php:121 | group 1 of `\s+(.+)$` is non-empty, has no line feed and ends the subject |
| AccessPatterns.FromHost | src/Analyzer/ServerConfigAnalyzer.php:121-133 | group 1 of `/^keyword\s+from\s+(.+)$/i` is non-empty, has no line feed and ends the line |
| AccessPatterns.FromAllParts | src/Analyzer/ServerConfigAnalyzer.php:109-119 | a "from all" line is the keyword, whitespace, "from", whitespace, then "all" |
| AccessPatterns.FromAllIsHost | src/Analyzer/ServerConfigAnalyzer.php:109-133 | every "from all" line also matches the host form, with a group starting "all" (why the "from all" tests must come first) |
| AccessPatterns.HostGroupOfSpaced | src/Analyzer/ServerConfigAnalyzer.php:121 | with text after the whitespace run, group 1 is that text |
| AccessPatterns.FromHostOf | src/Analyzer/ServerConfigAnalyzer.php:121-133 | the host group is read after "from" |
| AccessPatterns.InertByInitial | src/ServerConfig/ConfigConverter.php:87-113 | a line starting with a letter other than o, a or d matches none of the patterns |
| ApacheParser.SetCount | src/ServerConfig/ApacheParser.php:44-48 | PHP's `$matches` ends at the last group that took part |
| ApacheParser.GroupMeaning | src/ServerConfig/ApacheParser.php:48-168 | a group that took part reads as its text; one that did not reads as "" and is still `isset` exactly when a later group took part |
| ApacheParser.RedirectCode | src/ServerConfig/ApacheParser.php:166-168 | the redirect's status when the line names one, '302' otherwise |
| ApacheParser.RedirectWithoutCode | src/ServerConfig/ApacheParser.php:166-168 | for "Redirect /old /new" the code as written is "" while the intended one is '302' |
| ApacheParser.RedirectCodesAgree | src/ServerConfig/ApacheParser.php:166-168 | when the line names a status, both readings give it |
| ApacheParser.BuildLine | src/ServerConfig/ApacheParser.php:49-71 | every form makes exactly one entry, carrying the line number |
| ApacheParser.RecogniseFrom | src/ServerConfig/ApacheParser.php:43-194 | any entry of a line carries that line's number |
| ApacheParser.FirstMatchWins | src/ServerConfig/ApacheParser.php:43-194 | the first form that matches decides the entry, whatever later forms would match (each branch ends with `continue`) |
| ApacheParser.NoMatchNoEntry | src/ServerConfig/ApacheParser.php:195 | a line no form matches is dropped silently |
| ApacheParser.Classify | src/ServerConfig/ApacheParser.php:36-41 | a blank, "0" or '#' line gives nothing; any entry is numbered with its line |
| ApacheParser.UnrecognisedLine | src/ServerConfig/ApacheParser.php:43-195 | under anchored patterns, a line starting with none of the keywords gives nothing |
| ApacheParser.EntriesAt | src/ServerConfig/ApacheParser.php:33-35 | one entry slot per line of `explode("\n")`, the i-th from line i + 1 |
| ApacheParser.EntriesNumbered | src/ServerConfig/ApacheParser.php:35-49 | every entry's line is its split index plus one |
| ApacheParser.PickInLineOrder | src/ServerConfig/ApacheParser.php:35-195 | a bucket picked from numbered entries has strictly increasing, in-range line numbers |
| ApacheParser.ParsedInLineOrder | src/ServerConfig/ApacheParser.php:35-195 | each of the six buckets lists its entries in source order |
| ApacheParser.BucketsInLineOrder | src/ServerConfig/ApacheParser.php:19-198 | the parsed buckets of a content are in line order |
| ApacheParser.WarningsFollowAccess | src/ServerConfig/ApacheParser.php:87-143 | one warning per Order, Allow or Deny entry, on its line and in its order; Require raises none |
| ApacheParser.WarningsAreDeprecations | src/ServerConfig/ApacheParser.php:87-124 | every warning the lines raise names Order, Allow or Deny and says it is deprecated in Apache 2.4+ |
| ApacheParser.Parser.constructor | src/ServerConfig/ApacheParser.php:10-11 | a new parser has no issues and no warnings |
| ApacheParser.Parser.Parse | src/ServerConfig/ApacheParser.php:19-198 | returns the buckets of this content and replaces the warnings by this content's; the issues are reset and stay empty, and the invariant holds |
| ApacheParser.Parser.GetIssues | src/ServerConfig/ApacheParser.php:203-206 | always empty |
| ApacheParser.Parser.GetWarnings | src/ServerConfig/ApacheParser.php:211-214 | only deprecation warnings: the directive is Order, Allow or Deny and the message says it is deprecated in Apache 2.4+ |
| ApacheParser.Collect | src/ServerConfig/ApacheParser.php:45-192 | one loop step: the buckets and warnings after a line are those of all entries so far plus this line's entry |
| ApacheParser.AddEntry | src/ServerConfig/ApacheParser.php:45-192 | one more line's entry lands in its own bucket only, and adds a warning only for an Apache 2.2 access entry |
| NginxGenerator.FirstIndexIsFirst | src/ServerConfig/NginxGenerator.php:25-30 | the first DirectoryIndex directive gives the index, whatever follows it (the loop breaks) |
| NginxGenerator.FirstIndexNone | src/ServerConfig/NginxGenerator.php:25-30 | there is no `index` line exactly when no directive is a DirectoryIndex |
| NginxGenerator.AccessLine | src/ServerConfig/NginxGenerator.php:37-46 | "deny all;" exactly for Require all denied or Deny from all, "# allow all;" exactly for Require all granted or Allow from all, nothing otherwise |
| NginxGenerator.RedirectPermanent | src/ServerConfig/NginxGenerator.php:88-91 | a redirect is `permanent` exactly when its code is '301', `redirect` otherwise |
| NginxGenerator.RewriteFlags | src/ServerConfig/NginxGenerator.php:110-117 | the flag is `last` exactly when the flags hold an L, ignoring case |
| NginxGenerator.RewriteFlagsNone | src/ServerConfig/NginxGenerator.php:110-117 | no flag exactly when the flags hold neither L nor R, ignoring case |
| NginxGenerator.StripAnchors | src/ServerConfig/NginxGenerator.php:147-150 | the result neither starts with '^' nor ends with '$', and uses only characters of the pattern |
| NginxGenerator.StripAnchoredStart | src/ServerConfig/NginxGenerator.php:147-150 | a pattern anchored at the start loses exactly its anchor |
| NginxGenerator.StripAnchoredBoth | src/ServerConfig/NginxGenerator.php:147-150 | a pattern anchored at both ends loses exactly its anchors |
| NginxGenerator.ConvertPattern | src/ServerConfig/NginxGenerator.php:144-157 | the Nginx pattern starts with exactly one '^' and does not end with '$' |
| NginxGenerator.ConvertPatternIdempotent | src/ServerConfig/NginxGenerator.php:144-157 | converting a converted pattern changes nothing |
| NginxGenerator.Render | src/ServerConfig/NginxGenerator.php:122-138 | every converted rule is a non-empty line (try_files, a comment or a rewrite), so `if ($nginxRule)` keeps it |
| NginxGenerator.ConvertRule | src/ServerConfig/NginxGenerator.php:100-139 | try_files exactly for a catch-all pattern and a target starting "index.php", keeping the target; the comment exactly for the WordPress index.php rule; otherwise a rewrite with the converted pattern and flag |
| NginxGenerator.EveryRuleEmits | src/ServerConfig/NginxGenerator.php:65-70 | every rewrite rule contributes exactly its converted line |
| NginxGenerator.IndexSection | src/ServerConfig/NginxGenerator.php:25-30 | the loop's lines are the `index` line of the first DirectoryIndex, if any |
| NginxGenerator.AccessSection | src/ServerConfig/NginxGenerator.php:37-47 | the loop keeps the lines of exactly the entries that have one, in order |
| NginxGenerator.PhpSection | src/ServerConfig/NginxGenerator.php:55-57 | one commented php_admin_value line per setting, in order |
| NginxGenerator.RuleSection | src/ServerConfig/NginxGenerator.php:65-70 | the converted lines of the rules that give one, in order |
| NginxGenerator.ErrorSection | src/ServerConfig/NginxGenerator.php:78-80 | one error_page line per error document, in order |
| NginxGenerator.RedirectSection | src/ServerConfig/NginxGenerator.php:88-91 | one rewrite line per redirect, in order |
| NginxGenerator.Generate | src/ServerConfig/NginxGenerator.php:16-95 | the output is the header, the index line and each non-empty section (a blank line, its title, its lines) joined by line feeds |
| NginxGenerator.GenerateOpensWithHeader | src/ServerConfig/NginxGenerator.php:20-22 | every configuration opens with the two header comments |
| NginxGenerator.GenerateLineCount | src/ServerConfig/NginxGenerator.php:16-95 | the line count is 3, at most one index line, and two title lines plus one line per entry for each non-empty bucket (access control: per "all" entry) |
| NginxGenerator.JoinHeader | src/ServerConfig/NginxGenerator.php:20-94 | the header joins to its two comments and a trailing line feed |
| NginxGenerator.EmptyConfiguration | src/ServerConfig/NginxGenerator.php:16-95 | with no index and empty buckets the output is the header alone |
| FrankenPHPGenerator.ConvertPattern | src/ServerConfig/FrankenPHPGenerator.php:155-162 | the Caddy pattern is anchored at both ends |
| FrankenPHPGenerator.ConvertPatternExtendsNginx | src/ServerConfig/FrankenPHPGenerator.php:155-162 | it is the Nginx pattern followed by '$' |
| FrankenPHPGenerator.ConvertPatternIdempotent | src/ServerConfig/FrankenPHPGenerator.php:155-162 | converting a converted pattern changes nothing |
| FrankenPHPGenerator.ConvertRule | src/ServerConfig/FrankenPHPGenerator.php:127-150 | no rule exactly for the WordPress index.php rule; try_files exactly for a catch-all pattern whose target contains "index.php"; otherwise a rewrite matcher with the converted pattern |
| FrankenPHPGenerator.Render | src/ServerConfig/FrankenPHPGenerator.php:139-149 | every rule renders to non-empty text (try_files or a named matcher) |
| FrankenPHPGenerator.RewriteLines | src/ServerConfig/FrankenPHPGenerator.php:70-149 | a rewrite's text splits at line feeds into its four lines |
| FrankenPHPGenerator.RenderRewrite | src/ServerConfig/FrankenPHPGenerator.php:146-149 | the rewrite text is the matcher block followed by the rewrite line |
| FrankenPHPGenerator.SkippedRule | src/ServerConfig/FrankenPHPGenerator.php:68-134 | the WordPress index.php rule contributes no line |
| FrankenPHPGenerator.TryFilesOneLine | src/ServerConfig/FrankenPHPGenerator.php:139 | try_files is one line |
| FrankenPHPGenerator.TryFilesRule | src/ServerConfig/FrankenPHPGenerator.php:67-141 | a front-controller rule contributes the indented try_files line alone |
| FrankenPHPGenerator.RewriteRuleBlock | src/ServerConfig/FrankenPHPGenerator.php:67-149 | any other rule contributes its four matcher lines, each indented by a tab |
| FrankenPHPGenerator.IndexBlockValue | src/ServerConfig/FrankenPHPGenerator.php:47-55 | the first DirectoryIndex gives a three-line file_server block with its value, no DirectoryIndex gives none |
| FrankenPHPGenerator.ErrorLines | src/ServerConfig/FrankenPHPGenerator.php:85-88 | each error document gives four lines |
| FrankenPHPGenerator.RedirectPermanent | src/ServerConfig/FrankenPHPGenerator.php:100-101 | a redir line ends `permanent` exactly when the code is '301', and with an empty word otherwise |
| FrankenPHPGenerator.AccessLines | src/ServerConfig/FrankenPHPGenerator.php:111-116 | an access entry gives lines exactly when it is Deny from all |
| FrankenPHPGenerator.AccessBlock | src/ServerConfig/FrankenPHPGenerator.php:111-116 | the access lines are two per Deny from all entry, and each is the comment or `respond 403` |
| FrankenPHPGenerator.PhpSection | src/ServerConfig/FrankenPHPGenerator.php:34-36 | one commented line per PHP setting, in order |
| FrankenPHPGenerator.IndexSection | src/ServerConfig/FrankenPHPGenerator.php:47-55 | the loop's lines are the file_server block of the first DirectoryIndex |
| FrankenPHPGenerator.IndentLines | src/ServerConfig/FrankenPHPGenerator.php:70-72 | each line of the split text, prefixed with a tab |
| FrankenPHPGenerator.RuleSection | src/ServerConfig/FrankenPHPGenerator.php:67-74 | the indented lines of each rule, in order |
| FrankenPHPGenerator.ErrorSection | src/ServerConfig/FrankenPHPGenerator.php:84-89 | the four lines of each error document, in order |
| FrankenPHPGenerator.RedirectSection | src/ServerConfig/FrankenPHPGenerator.php:99-102 | one redir line per redirect, in order |
| FrankenPHPGenerator.AccessSection | src/ServerConfig/FrankenPHPGenerator.php:111-116 | the lines of each access entry, in order |
| FrankenPHPGenerator.Generate | src/ServerConfig/FrankenPHPGenerator.php:16-122 | the output is the prologue, the sections in source order and the closing brace, joined by line feeds |
| FrankenPHPGenerator.GenerateFrame | src/ServerConfig/FrankenPHPGenerator.php:20-119 | every Caddyfile opens with the global block and `localhost {` and ends with `}` |
| FrankenPHPGenerator.ErrorBlockLength | src/ServerConfig/FrankenPHPGenerator.php:84-89 | the error block holds four lines per error document |
| ConfigConverter.Examine | src/ServerConfig/ConfigConverter.php:84-111 | a line's verdicts are taken on its trimmed text, and the line itself is kept |
| ConfigConverter.Examined | src/ServerConfig/ConfigConverter.php:74-78 | one examined line per line of the split content |
| ConfigConverter.ExaminedAt | src/ServerConfig/ConfigConverter.php:74-78 | the k-th examined line is the k-th line, examined |
| ConfigConverter.Upgraded | src/ServerConfig/ConfigConverter.php:78-114 | the upgrade never emits more lines than it reads |
| ConfigConverter.UpgradedAt | src/ServerConfig/ConfigConverter.php:87-113 | one step of the pass from line i: an Order line followed by a "from all" line emits one Require line and skips two lines, Allow before Deny; anything else emits its single conversion |
| ConfigConverter.UpgradeStep | src/ServerConfig/ConfigConverter.php:84-113 | the same step stated on the raw lines, with the look-ahead reading the next trimmed line, or "" after the last |
| ConfigConverter.NothingFromAll | src/ServerConfig/ConfigConverter.php:89 | the "" the look-ahead reads past the last line is no "from all" line |
| ConfigConverter.StandaloneKeepsWhitespace | src/ServerConfig/ConfigConverter.php:103-111 | a standalone "from all" line keeps its leading and trailing whitespace around the Require text |
| ConfigConverter.OrderPairCollapses | src/ServerConfig/ConfigConverter.php:87-99 | an Order line followed by Allow (or else Deny) from all becomes one indented Require line |
| ConfigConverter.RequireInert | src/ServerConfig/ConfigConverter.php:87-111 | a Require line, with any whitespace around it, matches none of the three patterns |
| ConfigConverter.SingleNotFromAll | src/ServerConfig/ConfigConverter.php:103-113 | a line converted on its own is no "from all" line afterwards |
| ConfigConverter.CollapsedNotFromAll | src/ServerConfig/ConfigConverter.php:92-96 | the indented Require lines are no "from all" lines |
| ConfigConverter.NoFromAllBy | src/ServerConfig/ConfigConverter.php:78-114 | for any line classifier that sees no "from all" in what the upgrade emits line by line, it sees none in the whole output |
| ConfigConverter.ExamineFindsNone | src/ServerConfig/ConfigConverter.php:87-113 | the upgrade's own classifier sees no "from all" in any line it emits |
| ConfigConverter.NoFromAllSurvives | src/ServerConfig/ConfigConverter.php:72-117 | no Allow from all or Deny from all line survives the upgrade |
| ConfigConverter.UpgradeFixes | src/ServerConfig/ConfigConverter.php:78-114 | lines with no "from all" line among them come through unchanged |
| ConfigConverter.IdempotentBy | src/ServerConfig/ConfigConverter.php:72-117 | for any classifier that keeps each line's text and sees no "from all" in the output, upgrading twice is upgrading once |
| ConfigConverter.UpgradeIdempotent | src/ServerConfig/ConfigConverter.php:72-117 | upgrading the upgraded lines changes nothing |
| ConfigConverter.SingleNoNewline | src/ServerConfig/ConfigConverter.php:103-113 | a line converted on its own holds no line feed |
| ConfigConverter.OneLineBy | src/ServerConfig/ConfigConverter.php:78-114 | for any classifier whose single conversions stay on one line, no emitted line holds a line feed |
| ConfigConverter.UpgradedNoNewline | src/ServerConfig/ConfigConverter.php:74-114 | no line of the upgrade holds a line feed |
| ConfigConverter.UpgradeTextProperties | src/ServerConfig/ConfigConverter.php:72-117 | the upgraded text has no more lines than the content, and upgrading it again gives it back |
| ConfigConverter.ConversionOutcome | src/ServerConfig/ConfigConverter.php:29-67 | success exactly for an apache source to nginx, frankenphp, or apache22 to apache24; success exactly when there is no error; otherwise one error naming the source or the pair, and nothing converted; from and to are echoed |
| ConfigConverter.ConversionWarnings | src/ServerConfig/ConfigConverter.php:41-43 | the warnings are the parser's, one per Apache 2.2 access entry, for an apache source, and none otherwise |
| ConfigConverter.Converter.constructor | src/ServerConfig/ConfigConverter.php:14-19 | the converter owns a fresh parser with no issues and no warnings |
| ConfigConverter.Converter.Convert | src/ServerConfig/ConfigConverter.php:29-67 | returns the conversion of the content; the parser keeps that content's warnings for an apache source and is untouched otherwise |
| ConfigConverter.Converter.ConvertParsed | src/ServerConfig/ConfigConverter.php:45-57 | the target picks the generator or the upgrade, and an unknown pair is an error |
| ConfigConverter.Converter.UpgradeLine | src/ServerConfig/ConfigConverter.php:79-113 | the loop body's line and skip flag are one step of the upgrade, and the flag is set only when a next line exists |
| ConfigConverter.Converter.UpgradeApache22To24 | src/ServerConfig/ConfigConverter.php:72-117 | the loop with its skip flag computes the upgraded text |
| ServerConfigAnalyzer.Indent | src/Analyzer/ServerConfigAnalyzer.php:110-129 | the indent is one space for each character ltrim strips, whatever those characters were |
| ServerConfigAnalyzer.DirectiveOf | src/Analyzer/ServerConfigAnalyzer.php:104-133 | a host form's group 1 is non-empty, holds no line feed and ends the trimmed line |
| ServerConfigAnalyzer.HostNotEmpty | src/Analyzer/ServerConfigAnalyzer.php:121-131 | the trimmed host is never empty and ends with a character trim keeps |
| ServerConfigAnalyzer.RequireTextEnds | src/Analyzer/ServerConfigAnalyzer.php:111-131 | every replacement starts "Require " and ends with a character trim keeps |
| ServerConfigAnalyzer.RequireParts | src/Analyzer/ServerConfigAnalyzer.php:109-133 | an access directive becomes its spaces indent followed by a Require directive |
| ServerConfigAnalyzer.IndentKept | src/Analyzer/ServerConfigAnalyzer.php:100-136 | the upgraded line's leading whitespace is as long as the original's, and all spaces |
| ServerConfigAnalyzer.OrderCommented | src/Analyzer/ServerConfigAnalyzer.php:104-107 | an Order line is kept as a comment with the note that Require follows |
| ServerConfigAnalyzer.AllBeforeHost | src/Analyzer/ServerConfigAnalyzer.php:109-133 | a "from all" line also matches the host form, and the "from all" test wins: Require all granted, or else all denied |
| ServerConfigAnalyzer.UpgradeLineOneLine | src/Analyzer/ServerConfigAnalyzer.php:100-136 | no upgraded line holds a line feed |
| ServerConfigAnalyzer.InertKept | src/Analyzer/ServerConfigAnalyzer.php:135 | a line that is no access directive comes through unchanged |
| ServerConfigAnalyzer.CommentInert | src/Analyzer/ServerConfigAnalyzer.php:105 | the comment an Order line becomes is no access directive |
| ServerConfigAnalyzer.RequireInert | src/Analyzer/ServerConfigAnalyzer.php:109-133 | a Require line the upgrade emits is no access directive |
| ServerConfigAnalyzer.RequireStartInert | src/Analyzer/ServerConfigAnalyzer.php:104-133 | any text starting "Require " matches none of the five patterns |
| ServerConfigAnalyzer.UpgradeLineIdempotent | src/Analyzer/ServerConfigAnalyzer.php:100-136 | upgrading an upgraded line changes nothing |
| ServerConfigAnalyzer.UpgradeTextLines | src/Analyzer/ServerConfigAnalyzer.php:95-139 | the upgraded text's lines are the content's lines, each upgraded: one line out per line in |
| ServerConfigAnalyzer.UpgradeTextIdempotent | src/Analyzer/ServerConfigAnalyzer.php:95-139 | upgrading an upgraded configuration changes nothing |
| ServerConfigAnalyzer.UpgradeApache22To24 | src/Analyzer/ServerConfigAnalyzer.php:95-139 | the loop computes the upgraded text |
| ServerConfigAnalyzer.AnalysisOutcome | src/Analyzer/ServerConfigAnalyzer.php:36-90 | a missing file is the only failure; otherwise the file and content are echoed with no issues; a non-Apache source converts nothing and has no warnings; an Apache source is parsed and carries the parser's warnings, is upgraded for apache24 and converts nothing for an unknown target |
| ServerConfigAnalyzer.Analyze | src/Analyzer/ServerConfigAnalyzer.php:36-90 | returns that analysis, with a fresh parser reading an Apache source |
| ServerConfigAnalyzer.GenerateFor | src/Analyzer/ServerConfigAnalyzer.php:71-80 | the target picks the generator or the upgrade, and an unknown target converts nothing |
| DependencyChecker.Get | src/Analyzer/DependencyChecker.php:58-72 | a lookup finds a value exactly when the object has the key |
| DependencyChecker.GetAt | src/Analyzer/DependencyChecker.php:58-72 | with distinct keys, looking up an entry's key gives that entry's value |
| DependencyChecker.Overlay | src/Analyzer/DependencyChecker.php:63-66 | the first array's entries keep their keys, count and order |
| DependencyChecker.Extra | src/Analyzer/DependencyChecker.php:63-66 | the appended entries are exactly the second array's keys the first lacks |
| DependencyChecker.GetOverlay | src/Analyzer/DependencyChecker.php:63-66 | an overlaid key takes the second array's value when it has the key, the first's otherwise |
| DependencyChecker.GetExtra | src/Analyzer/DependencyChecker.php:63-66 | an appended key keeps the second array's value |
| DependencyChecker.MergeShape | src/Analyzer/DependencyChecker.php:63-66 | array_merge of two sections has distinct keys, the keys of both, require-dev's value for every require-dev key and require's for the others |
| DependencyChecker.OutdatedConstraintMeaning | src/Analyzer/DependencyChecker.php:123-131 | `/^[<>=]+\s*[0-4]\./` matches exactly when the constraint is one or more comparison characters, whitespace, a digit 0 to 4 and a dot |
| DependencyChecker.ConstraintIssues | src/Analyzer/DependencyChecker.php:76-101 | the outdated issue exactly for an outdated constraint, the wildcard issue exactly when it holds '*', the dev issue exactly when it starts "dev-" or holds "@dev"; at most three |
| DependencyChecker.TagAll | src/Analyzer/DependencyChecker.php:105-112 | each package issue, in order, tagged with the package's name and constraint |
| DependencyChecker.Check | src/Analyzer/DependencyChecker.php:29-118 | the loop computes the check's result |
| DependencyChecker.CheckStep | src/Analyzer/DependencyChecker.php:68-113 | one more entry adds its package and, after the earlier ones, that package's tagged issues |
| DependencyChecker.AllIssuesAppend | src/Analyzer/DependencyChecker.php:105-112 | the issues of two package lists are the first's followed by the second's |
| DependencyChecker.AllIssuesSplit | src/Analyzer/DependencyChecker.php:105-112 | the result's issues list each package's issues in package order |
| DependencyChecker.MergedPackages | src/Analyzer/DependencyChecker.php:63-103 | one package per name of either section, no name twice; its section is 'require' exactly when require names it; its constraint is require-dev's when both name it; its issues are its constraint's |
| DependencyChecker.CheckMeaning | src/Analyzer/DependencyChecker.php:29-118 | a missing file and an undecodable file each give their error; otherwise the result echoes the path, takes the php requirement from require, lists those packages and their issues |
| DependencyChecker.NamesOfPackages | src/Analyzer/DependencyChecker.php:68-74 | the packages' names are the merged array's keys |
| DependencyChecker.GetDependencyTree | src/Analyzer/DependencyChecker.php:136-158 | no tree exactly when the file cannot be decoded; otherwise the direct and dev sections, empty when absent |
| DependencyChecker.TreeMatchesCheck | src/Analyzer/DependencyChecker.php:63-158 | the tree's two sections name exactly the packages check lists |
| CodeScanner.Scan | src/Analyzer/CodeScanner.php:33-55 | the result holds the file scanner's files, their count and the sum of their sizes, and echoes the base and additional paths |
| CodeScanner.ExtBumpTotals | src/Analyzer/CodeScanner.php:73-81 | one more file raises the tally's total count by one and its total size by the file's size |
| CodeScanner.ExtBumpEntry | src/Analyzer/CodeScanner.php:73-81 | one more file creates its extension's entry at count 1 or bumps it, and leaves every other extension's entry alone |
| CodeScanner.BySizeDescOrders | src/Analyzer/CodeScanner.php:85-87 | the comparator `$b['size'] - $a['size']` is total and transitive, so the sort is well defined |
| CodeScanner.GetFileStatistics | src/Analyzer/CodeScanner.php:60-92 | the loop and the sort compute the statistics of the files |
| CodeScanner.ByExtensionSums | src/Analyzer/CodeScanner.php:69-82 | the extension counts add up to the number of files and the sizes to the total size |
| CodeScanner.ByExtensionCounts | src/Analyzer/CodeScanner.php:69-82 | an extension has an entry exactly when some file has it, and the entry counts those files |
| CodeScanner.LargestShape | src/Analyzer/CodeScanner.php:85-89 | the largest files are at most ten, ten unless there are fewer files, drawn from the files, in decreasing size |
| CodeScanner.LargestAreLargest | src/Analyzer/CodeScanner.php:85-89 | no file left out is larger than one kept |
| CodeScanner.StatisticsAgreeWithScan | src/Analyzer/CodeScanner.php:47-81 | the statistics of a scan's files agree with the scan's count and total size |
| FileScanner.MapCharAppend | src/Utils/FileScanner.php:125-127 | replacing one character distributes over concatenation |
| FileScanner.ReplaceOneChar | src/Utils/FileScanner.php:125-127 | str_replace of a one-character needle replaces each occurrence of that character on its own |
| FileScanner.GlobToRegexCharwise | src/Utils/FileScanner.php:123-130 | the three replacements never see each other's output: '/' becomes "\/", '*' ".*", '?' ".", every other character stays, inside `/^…$/i` |
| FileScanner.GlobStages | src/Utils/FileScanner.php:125-127 | the three passes in sequence are one character-by-character translation |
| FileScanner.ShouldExclude | src/Utils/FileScanner.php:107-118 | true exactly when some pattern's regex matches the path |
| FileScanner.RelativePath | src/Utils/FileScanner.php:94 | a path below the directory is the directory, '/', and the relative path; any other path is kept whole |
| FileScanner.RelativePathsAgree | src/Utils/FileScanner.php:94 | where the directory does not recur below itself, the code as written and the intended relative path agree |
| FileScanner.RelativePathRecurringDirectory | src/Utils/FileScanner.php:94 | scanning "src", the file "src/lib/src/a.php" gets "lib/a.php" as written, not "lib/src/a.php" |
| FileScanner.Record | src/Utils/FileScanner.php:92-98 | a record keeps the file's path, size, modification time and hash; its relative path is the path with every occurrence of the directory and "/" removed, as written |
| FileScanner.DirRecordsKept | src/Utils/FileScanner.php:69-99 | the records are exactly those of walk entries that are files, not excluded, of a listed extension and within the size limit |
| FileScanner.ScanDirectory | src/Utils/FileScanner.php:55-102 | the loop keeps those records in walk order, from the directory without trailing '/', and none for a non-directory |
| FileScanner.AdditionalStep | src/Utils/FileScanner.php:42-47 | one more additional path adds its directory's files, when it is a directory |
| FileScanner.CustomExcludesAdd | src/Utils/FileScanner.php:36 | a file is excluded by the merged patterns exactly when a configured or a custom one excludes it |
| FileScanner.ScanFilesKept | src/Utils/FileScanner.php:33-99 | every file of the main path passed the filter with the merged patterns |
| FileScanner.Scan | src/Utils/FileScanner.php:33-50 | the main path's files first, then each additional directory's, in order |
| FileScanner.ScanAdditional | src/Utils/FileScanner.php:42-47 | the loop collects the files of the additional paths that are directories |
| PluginDetector.Head | src/Analyzer/PluginDetector.php:154-156 | the header parsers see a prefix of the file: exactly 8192 characters when the file is longer, the whole file otherwise |
| PluginDetector.MatchStart | src/Analyzer/PluginDetector.php:214-216 | a match found starts at or after the search start, where the marker occurs and the rest of the pattern accepts what follows; none without an occurrence of the marker |
| PluginDetector.FirstOccurrence | src/Analyzer/PluginDetector.php:214-216 | the search finds the first occurrence of the marker |
| PluginDetector.MatchStartAt | src/Analyzer/PluginDetector.php:214-216 | when the first occurrence of the marker is followed by an accepted rest, the match starts there |
| PluginDetector.LineHead | src/Analyzer/PluginDetector.php:214-237 | a greedy `.+` takes the text up to the first line feed |
| PluginDetector.LastOnLine | src/Analyzer/PluginDetector.php:214-237 | the last character that is not a line feed, and none only when every character is one |
| PluginDetector.LineCapture | src/Analyzer/PluginDetector.php:214-237 | the capture of `\s*(.+)` is non-empty and holds no line feed |
| PluginDetector.Header | src/Analyzer/PluginDetector.php:210-241 | no value when the marker does not occur; a value holds no line feed and neither starts nor ends with whitespace trim removes |
| PluginDetector.LineFound | src/Analyzer/PluginDetector.php:214-237 | over whitespace and then a line, the capture is that line |
| PluginDetector.HeaderFound | src/Analyzer/PluginDetector.php:210-241 | after the first occurrence of the marker, whitespace (line feeds too) and a line, the value is the trimmed line |
| PluginDetector.NumberText | src/Analyzer/PluginDetector.php:110-116 | `(\d+);` captures a non-empty run of digits |
| PluginDetector.NumberTextOf | src/Analyzer/PluginDetector.php:110-116 | digits followed by ';' are captured whole |
| PluginDetector.AssignedNumber | src/Analyzer/PluginDetector.php:110-116 | `\s*=\s*(\d+);` captures a non-empty run of digits |
| PluginDetector.AssignedNumberOf | src/Analyzer/PluginDetector.php:110-116 | whitespace, '=', whitespace, digits and ';' give those digits |
| PluginDetector.MoodleField | src/Analyzer/PluginDetector.php:104-125 | no value when `$plugin->key` does not occur; a value is a non-empty run of digits |
| PluginDetector.QuoteFreeRun | src/Analyzer/PluginDetector.php:120-121 | `[^'"]+` runs up to the first quote or the end |
| PluginDetector.QuotedText | src/Analyzer/PluginDetector.php:120-121 | the quoted capture is non-empty and holds no quote |
| PluginDetector.QuotedTextOf | src/Analyzer/PluginDetector.php:120-121 | text between two quotes is captured whole |
| PluginDetector.AssignedQuoted | src/Analyzer/PluginDetector.php:120-121 | `\s*=\s*['"]([^'"]+)['"]` captures non-empty text without a quote |
| PluginDetector.AssignedQuotedOf | src/Analyzer/PluginDetector.php:120-121 | an assignment of quoted text gives that text |
| PluginDetector.ThisVersion | src/Analyzer/PluginDetector.php:306-308 | no version when `$this->version` does not occur; a version is non-empty and holds no quote |
| PluginDetector.DetectMoodleDirs | src/Analyzer/PluginDetector.php:78-95 | the loop keeps one plugin per directory with a version.php, in glob order |
| PluginDetector.DetectMoodlePlugins | src/Analyzer/PluginDetector.php:64-99 | the plugins of each existing type directory, types in their fixed order |
| PluginDetector.MoodleEntryShaped | src/Analyzer/PluginDetector.php:79-93 | a Moodle plugin has its type, its directory, the name "{type}_{name}" and a version.php |
| PluginDetector.MoodleRecords | src/Analyzer/PluginDetector.php:64-99 | every Moodle plugin found has one of the ten types and that shape |
| PluginDetector.MoodleVersionDefault | src/Analyzer/PluginDetector.php:82-90 | with a version.php there is a plugin, and its version is 'unknown' exactly when the file assigns none |
| PluginDetector.PluginInfo | src/Analyzer/PluginDetector.php:150-159 | there is header information exactly when some PHP file's first 8192 characters mention 'Plugin Name:' |
| PluginDetector.FindPluginInfo | src/Analyzer/PluginDetector.php:150-159 | the loop stops at the first such file and parses its header |
| PluginDetector.Stem | src/Analyzer/PluginDetector.php:181 | `$` also matches before one final line feed |
| PluginDetector.DefaultThemeNames | src/Analyzer/PluginDetector.php:181 | a theme is a default one exactly when its name is "twenty" and one of the fifteen years, optionally followed by one line feed |
| PluginDetector.DefaultThemeExamples | src/Analyzer/PluginDetector.php:181 | illustration only: "twentytwentyfour" and "twentyten\n" are default themes; "twentyfive" and "astra" are not |
| PluginDetector.DetectPluginDirs | src/Analyzer/PluginDetector.php:141-169 | the loop reports every plugin directory but akismet and hello, in glob order |
| PluginDetector.DetectThemeDirs | src/Analyzer/PluginDetector.php:177-201 | the loop reports every theme directory but the default themes, in glob order |
| PluginDetector.DetectWordPressPlugins | src/Analyzer/PluginDetector.php:130-205 | the plugins, then the themes; nothing at all without a plugins directory |
| PluginDetector.WordPressSkips | src/Analyzer/PluginDetector.php:130-205 | everything reported is custom, named after its directory and versioned, and is neither a bundled plugin nor a default theme; every other plugin directory is reported |
| PluginDetector.WordPressDefaults | src/Analyzer/PluginDetector.php:161-200 | without a header the name is the directory's and the version 'unknown', for plugins and themes alike |
| PluginDetector.DetectVendorModules | src/Analyzer/PluginDetector.php:262-276 | the loop reports one module per module directory of a vendor |
| PluginDetector.DetectPoolModules | src/Analyzer/PluginDetector.php:255-277 | the loop reports the modules of each vendor of an existing code pool |
| PluginDetector.DetectMagentoModules | src/Analyzer/PluginDetector.php:246-281 | the modules of the local pool, then of the community pool |
| PluginDetector.MagentoVendorRecords | src/Analyzer/PluginDetector.php:268-275 | a vendor's modules are named after their directories, "{vendor}_{module}" in full, with no version |
| PluginDetector.MagentoRecords | src/Analyzer/PluginDetector.php:246-281 | every Magento module found has that shape |
| PluginDetector.PrestaShopVersion | src/Analyzer/PluginDetector.php:299-309 | the capture of `$this->version = '…'` in the first 8192 characters of the main file; 'unknown' when that file is missing or has no such line; never empty |
| PluginDetector.DetectPrestaShopModules | src/Analyzer/PluginDetector.php:286-322 | one module per module directory, in glob order |
| PluginDetector.PrestaShopRecords | src/Analyzer/PluginDetector.php:286-322 | every module is named after its directory and versioned: the version read from its main file's header, and 'unknown' when that file is missing or has no version line |
| PluginDetector.ContainsSlash | src/Analyzer/PluginDetector.php:350 | `strpos($package, '/') !== false` holds exactly when the name holds '/' |
| PluginDetector.DetectComposerEntries | src/Analyzer/PluginDetector.php:348-366 | the loop keeps the package record of each entry that passes the two skips |
| PluginDetector.DetectComposerPackages | src/Analyzer/PluginDetector.php:327-369 | nothing without composer.json or when it decodes to nothing; otherwise the kept packages of both sections merged |
| PluginDetector.ComposerKeeps | src/Analyzer/PluginDetector.php:348-366 | a package is reported exactly when its name holds '/' and does not start "symfony/" or "laravel/" |
| PluginDetector.Detect | src/Analyzer/PluginDetector.php:29-59 | the detector the platform names |
| PluginDetector.Detected | src/Analyzer/PluginDetector.php:29-59 | a find is custom exactly when it does not come from composer.json; PluginDetector.DetectedKinds relates the platforms |
| PluginDetector.ComposerNotCustom | src/Analyzer/PluginDetector.php:348-366 | no composer package is custom |
| PluginDetector.DetectedKinds | src/Analyzer/PluginDetector.php:29-58 | symfony and laravel share composer detection, and an unknown platform finds nothing |
| Text.LowerStr | src/Utils/FileScanner.php:82 | strtolower keeps the length and lowers each ASCII capital, leaving every other character alone |
| Text.IndexOfFrom | src/Analyzer/DependencyChecker.php:86-95 | strpos finds the first occurrence at or after the offset, and none exactly when there is no occurrence there |
| Text.LTrim | src/Analyzer/ServerConfigAnalyzer.php:110 | ltrim drops exactly the leading run of whitespace and NUL characters |
| Text.RTrim | src/Utils/Helpers.php:145-146 | rtrim drops exactly the trailing run of those characters |
| Text.Trim | src/ServerConfig/ApacheParser.php:36 | trim leaves a text that neither starts nor ends with one of them |
| Text.TrimParts | src/ServerConfig/ConfigConverter.php:84-104 | a line is its leading run, its trimmed text and its trailing run |
| Text.TrimPadded | src/ServerConfig/ApacheParser.php:36 | trim of a text padded on both sides with whitespace gives back the text |
| Text.ReplaceTrimmed | src/ServerConfig/ConfigConverter.php:104-109 | replacing a line's non-empty trimmed text keeps its leading and trailing whitespace |
| Text.Split | src/ServerConfig/ApacheParser.php:33 | explode gives at least one piece, none holding the delimiter |
| Text.JoinSplit | src/ServerConfig/ConfigConverter.php:74-116 | implode of the explode of a text gives the text back |
| Text.SplitJoin | src/Analyzer/ServerConfigAnalyzer.php:97-138 | explode of the implode of delimiter-free pieces gives the pieces back |
| Text.SplitCount | src/ServerConfig/ApacheParser.php:33 | explode gives one piece more than there are delimiters |
| Text.ReplaceAllSelf | src/Utils/FileScanner.php:94 | str_replace of a needle by itself changes nothing |
| Text.Repeat | src/Analyzer/ServerConfigAnalyzer.php:110 | str_repeat gives n copies' worth of characters |
| Text.Prefix | src/Utils/Helpers.php:65 | substr from 0 gives a prefix as long as the length asks, a negative length dropping that many characters from the end |
| Text.ToIntIntToString | src/Utils/VersionComparator.php:104-120 | (int) reads back the decimal form of every integer |
| Text.Basename | src/Analyzer/PluginDetector.php:79 | basename has no '/' and is no longer than the path |
| Text.Extension | src/Utils/FileScanner.php:82 | an extension holds neither '.' nor '/' |
| Text.AfterLastDot | src/Utils/FileScanner.php:82 | the text after the last dot of the name, made of the name's characters; empty when there is no dot |
| Text.DecimalValueDigitDotDigit | src/Database/DatabaseManager.php:61-62 | "a.b" of two digits is a numeric string worth 10a + b tenths, as the loose comparison of array_search reads it |
| Rules.StripCR | src/Analyzer/PHPVersionAnalyzer.php:78 | a line as file() returns it is no longer than its piece |
| FunctionCallExtractor.FunctionCallExtractor.constructor | src/Parser/FunctionCallExtractor.php:12-13 | a new extractor has no calls and no current file |
| ClassUsageExtractor.ClassUsageExtractor.constructor | src/Parser/ClassUsageExtractor.php:12-13 | a new extractor has no usages and no current file |

## Left out

- VersionComparator.Compare: `version_compare` is modelled for dotted-numeric versions only. Pre-release suffixes are lost, so "8.0.0RC1" compares equal to "8.0.0", where PHP gives -1.
- Text.ToInt: `(int)` casts are unbounded integers and read only the leading digits. PHP saturates at PHP_INT_MAX and, since PHP 7.1, applies the exponent of a numeric string ("1e3" casts to 1000, ToInt gives 1). VersionComparator.GetNextMinor and VersionComparator.GetNextMajor inherit both differences.
- Text.LooseEquals: covers decimal numeric strings such as "8.0" == "8.00". Exponent forms ("1e3") and other float spellings are not covered.
- Strings are ASCII `seq<char>`. Multibyte and locale behaviour of `strtolower`, `trim` and `substr` is not modelled.
- Regular expressions: the PCRE engine is not modelled. `Rules.Matcher` and `ApacheParser.Captures` are unconstrained oracles, so any offsets or groups they return are accepted.
- File system: the directory walk (`FileScanner.Listing`) and the glob and file table (`PluginDetector.Disk`) are unconstrained inputs, and `md5_file` is a hash carried in each entry. A `*.php` glob lists files as given by the table.
- JSON decoding (`json_decode`) is a decoder parameter, and `readJson` and `writeJson` are not modelled.
- Application.Analyze: the clock (`microtime`, `date`), `scan_id`, `scan_duration`, the timestamp, logging and the try/catch are dropped. The plugins, server_config and dependencies sections are left out, and the scan's file list is an input.
- Application.EstimateEffort: floats are avoided. Rates and sums are in hundredths of an hour, and the result in tenths, with `round(..., 1)` rounding halves away from zero.
- `Helpers::formatFileSize`, `Helpers::formatDuration` and `CacheManager::formatBytes` use log and pow on floats and are not modelled.
- PhpVersionAnalyzer.Analyze: the `empty($changes)` early return is unreachable, because the composed changes always hold the rule keys (`PhpVersionAnalyzer.ChangesNeverEmpty`). It is therefore not modelled as a separate path.
- Ast.Unique: `array_unique` and `array_filter` keep the original keys, which is not modelled. The results are the values in order of first occurrence, as `array_values` would give.
- Container.Resolve: an exception thrown inside a resolver is not modelled. Neither is the resolver's access to the container (`$this`), so resolvers cannot register or resolve services while they run.
- `Config::load` (a PHP `require`) and `Config::merge` (`array_replace_recursive`) are not modelled.
- Logger.Logger.Log: file and STDERR output, the date prefix and the JSON encoding of the context are dropped. A written entry is kept as (level, message).
- ConfigConverter.Converter.Convert: the try/catch around parsing and generation is not modelled. In the model the parser and generators raise no exception, so the catch branch that appends the exception's message to 'errors' never fires.
- ServerConfigAnalyzer.Analyze: the logging calls and the try/catch around parsing and generation are dropped. The catch branch, which sets 'success' to false and records 'error', never fires in the model. The file is a map from path to content.
- CodeScanner.Scan: `microtime`, the 'scan_duration' entry and the logging calls are dropped.
- DependencyChecker.Check: the two logging calls are dropped.
- PluginDetector.Detect: the logging calls are dropped, including the warning for an unknown platform.
- Config.Config.All: a PHP array's insertion order is not kept, because nested arrays are Dafny maps. The configuration's key order, which all() exposes, is lost. No modelled operation depends on it.
- DependencyChecker.Check: `array_merge` renumbers purely numeric keys. Packages with numeric names are not distinguished from that case.
- Report rendering (the HTML, Markdown, text and JSON reporters) and `Application::generateReport` are templating over `htmlspecialchars`, `number_format` and `json_encode` and are not modelled.
- `CacheManager` is file I/O with `serialize`, `time()`, `glob` and `unlink`, and is not modelled.
- The PHPParser wrapper around nikic/php-parser is not modelled: the syntax tree is an input, or absent when parsing fails.
- `Helpers::generateUuid` (`random_bytes`), `Application::generateScanId` (`md5`/`uniqid`), `Helpers::escapeHtml` and `Helpers::ensureDirectory` are not modelled.
- The `getContainer`, `getConfig` and `getLogger` accessors and `registerServices` in Application are wiring only and are not modelled.
- The web page (public/index.php) and the example configuration (config/config.example.php) are not modelled. The default effort rates in `Application.DefaultRates` follow src/Core/Application.php:274-280.

## Findings

The model keeps the behaviour as written: `FileScanner.Record` and `ApacheParser.Build` use the
as-written members, and `Helpers.SanitizePath` is the source's `sanitizePath`. Each corrected
member carries the intended property, proved.

| source | as written | input that shows it | evidently intended | confidence | as-written member | corrected member |
|---|---|---|---|---|---|---|
| src/Utils/FileScanner.php:94 | `relative_path` removes every occurrence of the directory followed by "/" from the path | directory "src", file "src/lib/src/a.php" gives "lib/a.php" | only the leading "src/" is removed, giving "lib/src/a.php" | not executed | FileScanner.RelativePathAsWritten (exhibited by FileScanner.RelativePathRecurringDirectory) | FileScanner.RelativePath |
| src/ServerConfig/ApacheParser.php:168 | `$matches[1] ?? '302'` keeps the empty string that preg_match stores for the unmatched optional status group | "Redirect /old /new" records code "" | code "302" when the directive names no status | not executed | ApacheParser.RedirectCodeAsWritten (exhibited by ApacheParser.RedirectWithoutCode) | ApacheParser.RedirectCode |
| src/Utils/Helpers.php:15 | a single left-to-right removal of "../" can join the surrounding text into a new "../" | "..././etc" gives "../etc" | a result with no "../" step | not executed | Helpers.SanitizePath (exhibited by Helpers.SanitizePathLeavesTraversal) | Helpers.SanitizePathFixed |
