/** The .htaccess reader (src/ServerConfig/ApacheParser.php): every line is
    trimmed, recognised by the first directive pattern that matches it, and
    routed to one of six buckets; Apache 2.2 access directives also raise a
    warning. */
module ApacheParser {
  import opened Wrappers
  import opened Text
  import opened Seqs

  // ---------------------------------------------------------------------------
  // The directive patterns and preg_match

  /** The directive forms, in the order parse tries them. */
  datatype Form =
    | RewriteRuleForm | RewriteCondForm | RewriteEngineForm | RewriteBaseForm
    | OrderForm | AllowForm | DenyForm | RequireForm
    | PhpSettingForm | ErrorDocumentForm | RedirectForm | DirectoryIndexForm | OptionsForm

  /** The pattern parse hands to preg_match for each form. */
  function Pattern(f: Form): string {
    match f
    case RewriteRuleForm => "/^RewriteRule\\s+(.+?)\\s+(.+?)(?:\\s+\\[(.+?)\\])?$/i"
    case RewriteCondForm => "/^RewriteCond\\s+(.+?)\\s+(.+?)(?:\\s+\\[(.+?)\\])?$/i"
    case RewriteEngineForm => "/^RewriteEngine\\s+(On|Off)/i"
    case RewriteBaseForm => "/^RewriteBase\\s+(.+)$/i"
    case OrderForm => "/^Order\\s+(.+)$/i"
    case AllowForm => "/^Allow\\s+from\\s+(.+)$/i"
    case DenyForm => "/^Deny\\s+from\\s+(.+)$/i"
    case RequireForm => "/^Require\\s+(.+)$/i"
    case PhpSettingForm => "/^php_(?:value|flag)\\s+(.+?)\\s+(.+)$/i"
    case ErrorDocumentForm => "/^ErrorDocument\\s+(\\d+)\\s+(.+)$/i"
    case RedirectForm => "/^Redirect(?:Match)?\\s+(?:(\\d+)\\s+)?(.+?)\\s+(.+)$/i"
    case DirectoryIndexForm => "/^DirectoryIndex\\s+(.+)$/i"
    case OptionsForm => "/^Options\\s+(.+)$/i"
  }

  /** The literal text each pattern is anchored on. */
  function Keyword(f: Form): string {
    match f
    case RewriteRuleForm => "RewriteRule"
    case RewriteCondForm => "RewriteCond"
    case RewriteEngineForm => "RewriteEngine"
    case RewriteBaseForm => "RewriteBase"
    case OrderForm => "Order"
    case AllowForm => "Allow"
    case DenyForm => "Deny"
    case RequireForm => "Require"
    case PhpSettingForm => "php_"
    case ErrorDocumentForm => "ErrorDocument"
    case RedirectForm => "Redirect"
    case DirectoryIndexForm => "DirectoryIndex"
    case OptionsForm => "Options"
  }

  /** preg_match with a `$matches` argument, as an oracle: None when the
      pattern does not match the subject, otherwise the capturing groups
      1, 2, ... in order, None for a group that took no part in the match. */
  type Captures = (string, string) -> Option<seq<Option<string>>>

  /** Every pattern is anchored on its keyword (ignoring case, as `/i`
      does): a subject that does not start with it never matches. */
  ghost predicate Anchored(rec: Captures) {
    forall f: Form, s: string :: rec(Pattern(f), s).Some? ==> StartsWith(LowerStr(s), LowerStr(Keyword(f)))
  }

  /** The number of entries PHP puts in `$matches` after the whole match:
      up to the last group that took part. */
  function SetCount(groups: seq<Option<string>>): (r: nat)
    ensures r <= |groups|
    ensures r > 0 ==> groups[r - 1].Some?
    ensures forall k :: r <= k < |groups| ==> groups[k].None?
  {
    if groups == [] then 0
    else if groups[|groups| - 1].Some? then |groups|
    else SetCount(groups[..|groups| - 1])
  }

  /** `isset($matches[k])`: PHP reports a group that took no part as "" when
      a later group did, and leaves out the trailing ones. */
  predicate IsSet(groups: seq<Option<string>>, k: nat) {
    1 <= k <= SetCount(groups)
  }

  /** `$matches[k]` used as a string ("" where it is unset). */
  function Group(groups: seq<Option<string>>, k: nat): string {
    if IsSet(groups, k) then groups[k - 1].GetOr("") else ""
  }

  /** A group that took part reads as its text; one that did not reads as ""
      while it still counts as set when a later group took part. */
  lemma GroupMeaning(groups: seq<Option<string>>, k: nat)
    requires 1 <= k <= |groups|
    ensures groups[k - 1].Some? ==> IsSet(groups, k) && Group(groups, k) == groups[k - 1].value
    ensures groups[k - 1].None? ==>
      (Group(groups, k) == "" && (IsSet(groups, k) <==> exists j :: k <= j < |groups| && groups[j].Some?))
  {
  }

  // ---------------------------------------------------------------------------
  // The entries

  datatype RewriteRule = RewriteRule(pattern: string, target: string, flags: string, line: nat)

  /** 'directives': RewriteCond, and the one-value directives RewriteEngine,
      RewriteBase, DirectoryIndex and Options (`kind` is the 'type'). */
  datatype Directive =
    | RewriteCond(test: string, pattern: string, flags: string, line: nat)
    | Setting(kind: string, value: string, line: nat)

  datatype AccessKind = Order | Allow | Deny | Require

  function KindName(k: AccessKind): string {
    match k
    case Order => "Order"
    case Allow => "Allow"
    case Deny => "Deny"
    case Require => "Require"
  }

  /** 'access_control': `value` is the 'value' of Order and Require and the
      'from' of Allow and Deny. */
  datatype Access = Access(kind: AccessKind, value: string, line: nat) {
    /** 'apache22' is set on Order, Allow and Deny, 'apache24' on Require. */
    predicate Apache22() { kind != Require }
  }

  datatype PhpSetting = PhpSetting(name: string, value: string, line: nat)
  datatype ErrorDocument = ErrorDocument(code: string, target: string, line: nat)
  datatype Redirect = Redirect(code: string, from: string, to: string, line: nat)
  datatype Warning = Warning(line: nat, message: string, directive: string)

  datatype Parsed = Parsed(directives: seq<Directive>, rewriteRules: seq<RewriteRule>, accessControl: seq<Access>,
                           phpSettings: seq<PhpSetting>, errorDocuments: seq<ErrorDocument>, redirects: seq<Redirect>)

  /** What one line contributes. */
  datatype Entry =
    | NoEntry
    | RuleEntry(rule: RewriteRule)
    | DirectiveEntry(directive: Directive)
    | AccessEntry(access: Access)
    | PhpEntry(setting: PhpSetting)
    | ErrorEntry(document: ErrorDocument)
    | RedirectEntry(redirect: Redirect)

  function EntryLine(e: Entry): nat {
    match e
    case NoEntry => 0
    case RuleEntry(r) => r.line
    case DirectiveEntry(d) => d.line
    case AccessEntry(a) => a.line
    case PhpEntry(p) => p.line
    case ErrorEntry(d) => d.line
    case RedirectEntry(r) => r.line
  }

  // ---------------------------------------------------------------------------
  // The redirect code

  /** 'code' as written, `$matches[1] ?? '302'`: when the redirect names no
      status, group 1 takes no part but groups 2 and 3 do, so `$matches[1]`
      is "" and set, and the code is "" rather than '302'. */
  function RedirectCodeAsWritten(groups: seq<Option<string>>): string {
    if IsSet(groups, 1) then Group(groups, 1) else "302"
  }

  /** 'code' as intended: the status when the redirect names one, else '302'. */
  function RedirectCode(groups: seq<Option<string>>): (r: string)
    ensures groups != [] && groups[0].Some? ==> r == groups[0].value
    ensures (groups == [] || groups[0].None?) ==> r == "302"
  {
    if groups != [] && groups[0].Some? then groups[0].value else "302"
  }

  /** A redirect without a status ("Redirect /old /new"): the code as written
      is "", the intended one '302'. */
  lemma RedirectWithoutCode(from: string, to: string)
    ensures RedirectCodeAsWritten([None, Some(from), Some(to)]) == ""
    ensures RedirectCode([None, Some(from), Some(to)]) == "302"
  {
    assert SetCount([None, Some(from), Some(to)]) == 3;
  }

  /** The two agree whenever the redirect names a status. */
  lemma RedirectCodesAgree(groups: seq<Option<string>>)
    requires groups != [] && groups[0].Some?
    ensures RedirectCodeAsWritten(groups) == RedirectCode(groups)
  {
  }

  // ---------------------------------------------------------------------------
  // One line

  /** The order in which parse tries the forms. */
  const Forms: seq<Form> := [RewriteRuleForm, RewriteCondForm, RewriteEngineForm, RewriteBaseForm,
                             OrderForm, AllowForm, DenyForm, RequireForm,
                             PhpSettingForm, ErrorDocumentForm, RedirectForm, DirectoryIndexForm, OptionsForm]

  /** A captured group, trimmed. */
  function Arg(g: seq<Option<string>>, k: nat): string {
    Trim(Group(g, k))
  }

  /** The entry form `f` makes of line `n` from its captured groups.  The
      rewrite flags default to "" when group 3 is unset, which is what
      Group already reads for an unset group. */
  function Build(f: Form, g: seq<Option<string>>, n: nat): Entry {
    match f
    case RewriteRuleForm => RuleEntry(RewriteRule(Group(g, 1), Group(g, 2), Group(g, 3), n))
    case RewriteCondForm => DirectiveEntry(RewriteCond(Group(g, 1), Group(g, 2), Group(g, 3), n))
    case RewriteEngineForm => DirectiveEntry(Setting("RewriteEngine", Group(g, 1), n))
    case RewriteBaseForm => DirectiveEntry(Setting("RewriteBase", Arg(g, 1), n))
    case OrderForm => AccessEntry(Access(Order, Arg(g, 1), n))
    case AllowForm => AccessEntry(Access(Allow, Arg(g, 1), n))
    case DenyForm => AccessEntry(Access(Deny, Arg(g, 1), n))
    case RequireForm => AccessEntry(Access(Require, Arg(g, 1), n))
    case PhpSettingForm => PhpEntry(PhpSetting(Arg(g, 1), Arg(g, 2), n))
    case ErrorDocumentForm => ErrorEntry(ErrorDocument(Group(g, 1), Arg(g, 2), n))
    case RedirectForm => RedirectEntry(Redirect(RedirectCodeAsWritten(g), Arg(g, 2), Arg(g, 3), n))
    case DirectoryIndexForm => DirectiveEntry(Setting("DirectoryIndex", Arg(g, 1), n))
    case OptionsForm => DirectiveEntry(Setting("Options", Arg(g, 1), n))
  }

  /** Every form makes an entry, and the entry keeps the line number. */
  lemma BuildLine(f: Form, g: seq<Option<string>>, n: nat)
    ensures Build(f, g, n) != NoEntry && EntryLine(Build(f, g, n)) == n
  {
  }

  /** The entry of a trimmed line numbered `n`: the first of `forms` whose
      pattern matches decides, and nothing when none does. */
  function RecogniseFrom(rec: Captures, t: string, n: nat, forms: seq<Form>): (e: Entry)
    ensures e != NoEntry ==> EntryLine(e) == n
  {
    if forms == [] then NoEntry
    else match rec(Pattern(forms[0]), t)
      case Some(g) => BuildLine(forms[0], g, n); Build(forms[0], g, n)
      case None => RecogniseFrom(rec, t, n, forms[1..])
  }

  /** The first form that matches wins: the entry is that form's, whatever
      later forms would also match. */
  lemma {:induction false} FirstMatchWins(rec: Captures, t: string, n: nat, forms: seq<Form>, k: nat)
    requires k < |forms| && rec(Pattern(forms[k]), t).Some?
    requires forall j :: 0 <= j < k ==> rec(Pattern(forms[j]), t).None?
    ensures RecogniseFrom(rec, t, n, forms) == Build(forms[k], rec(Pattern(forms[k]), t).value, n)
  {
    if k > 0 {
      assert rec(Pattern(forms[0]), t).None?;
      FirstMatchWins(rec, t, n, forms[1..], k - 1);
    }
  }

  /** A line no form matches contributes nothing. */
  lemma {:induction false} NoMatchNoEntry(rec: Captures, t: string, n: nat, forms: seq<Form>)
    requires forall j :: 0 <= j < |forms| ==> rec(Pattern(forms[j]), t).None?
    ensures RecogniseFrom(rec, t, n, forms) == NoEntry
  {
    if forms != [] {
      assert rec(Pattern(forms[0]), t).None?;
      NoMatchNoEntry(rec, t, n, forms[1..]);
    }
  }

  /** A line with nothing but blanks, "0", or a comment. */
  predicate Skipped(line: string) {
    var t := Trim(line);
    !Truthy(t) || t[0] == '#'
  }

  /** The entry of line `n` (numbered from 1). */
  function Classify(rec: Captures, line: string, n: nat): (e: Entry)
    ensures e != NoEntry ==> EntryLine(e) == n
    ensures Skipped(line) ==> e == NoEntry
  {
    if Skipped(line) then NoEntry else RecogniseFrom(rec, Trim(line), n, Forms)
  }

  /** Under anchored patterns, a line that does not start with any
      directive keyword contributes nothing. */
  lemma UnrecognisedLine(rec: Captures, line: string, n: nat)
    requires Anchored(rec)
    requires forall f: Form :: !StartsWith(LowerStr(Trim(line)), LowerStr(Keyword(f)))
    ensures Classify(rec, line, n) == NoEntry
  {
    var t := Trim(line);
    assert forall j :: 0 <= j < |Forms| ==> rec(Pattern(Forms[j]), t).None?;
    NoMatchNoEntry(rec, t, n, Forms);
  }

  // ---------------------------------------------------------------------------
  // Routing the entries

  /** The entries of the lines, line `i + 1` from `lines[i]`. */
  function EntriesOf(rec: Captures, lines: seq<string>): seq<Entry> {
    if lines == [] then []
    else EntriesOf(rec, lines[..|lines| - 1]) + [Classify(rec, lines[|lines| - 1], |lines|)]
  }

  lemma {:induction false} EntriesAt(rec: Captures, lines: seq<string>)
    ensures |EntriesOf(rec, lines)| == |lines|
    ensures forall i :: 0 <= i < |lines| ==> EntriesOf(rec, lines)[i] == Classify(rec, lines[i], i + 1)
  {
    if lines != [] {
      var front := lines[..|lines| - 1];
      EntriesAt(rec, front);
      var es := EntriesOf(rec, lines);
      assert es == EntriesOf(rec, front) + [Classify(rec, lines[|lines| - 1], |lines|)];
      forall i | 0 <= i < |lines| ensures es[i] == Classify(rec, lines[i], i + 1) {
        if i < |front| {
          assert lines[i] == front[i] && es[i] == EntriesOf(rec, front)[i];
        }
      }
    }
  }

  function AsDirective(e: Entry): Option<Directive> {
    if e.DirectiveEntry? then Some(e.directive) else None
  }
  function AsRule(e: Entry): Option<RewriteRule> {
    if e.RuleEntry? then Some(e.rule) else None
  }
  function AsAccess(e: Entry): Option<Access> {
    if e.AccessEntry? then Some(e.access) else None
  }
  function AsPhp(e: Entry): Option<PhpSetting> {
    if e.PhpEntry? then Some(e.setting) else None
  }
  function AsErrorDocument(e: Entry): Option<ErrorDocument> {
    if e.ErrorEntry? then Some(e.document) else None
  }
  function AsRedirect(e: Entry): Option<Redirect> {
    if e.RedirectEntry? then Some(e.redirect) else None
  }

  /** The warning an access entry raises: Order, Allow and Deny do. */
  function AccessWarning(a: Access): Option<Warning> {
    if a.Apache22() then
      Some(Warning(a.line, KindName(a.kind) + " directive is deprecated in Apache 2.4+", KindName(a.kind)))
    else None
  }

  function EntryWarning(e: Entry): Option<Warning> {
    if e.AccessEntry? then AccessWarning(e.access) else None
  }

  /** The only warning the parser raises: an Order, Allow or Deny directive
      is deprecated in Apache 2.4. */
  predicate IsDeprecation(w: Warning) {
    w.directive in {"Order", "Allow", "Deny"} && w.message == w.directive + " directive is deprecated in Apache 2.4+"
  }

  lemma {:induction false} WarningsAreDeprecations(entries: seq<Entry>)
    ensures forall w :: w in Pick(entries, EntryWarning) ==> IsDeprecation(w)
  {
    if entries != [] {
      WarningsAreDeprecations(entries[..|entries| - 1]);
    }
  }

  /** The six buckets of a run of entries. */
  function ParsedOf(entries: seq<Entry>): Parsed {
    Parsed(Pick(entries, AsDirective), Pick(entries, AsRule), Pick(entries, AsAccess),
           Pick(entries, AsPhp), Pick(entries, AsErrorDocument), Pick(entries, AsRedirect))
  }

  /** The result of parse: the buckets and the warnings. */
  function ParseContent(rec: Captures, content: string): (Parsed, seq<Warning>) {
    var entries := EntriesOf(rec, Split(content, '\n'));
    (ParsedOf(entries), Pick(entries, EntryWarning))
  }

  /** Each entry is nothing or carries its own line number, counting from 1. */
  predicate Numbered(entries: seq<Entry>) {
    forall i :: 0 <= i < |entries| ==> entries[i] == NoEntry || EntryLine(entries[i]) == i + 1
  }

  lemma {:induction false} EntriesNumbered(rec: Captures, lines: seq<string>)
    ensures |EntriesOf(rec, lines)| == |lines| && Numbered(EntriesOf(rec, lines))
  {
    if lines != [] {
      EntriesNumbered(rec, lines[..|lines| - 1]);
    }
  }

  /** What a selection picks from numbered entries carries line numbers of
      those entries, strictly increasing. */
  lemma {:induction false} PickInLineOrder<B>(entries: seq<Entry>, f: Entry -> Option<B>, line: B -> nat)
    requires Numbered(entries)
    requires forall e, y :: f(e) == Some(y) ==> e != NoEntry && line(y) == EntryLine(e)
    ensures forall i :: 0 <= i < |Pick(entries, f)| ==> 1 <= line(Pick(entries, f)[i]) <= |entries|
    ensures forall i, j :: 0 <= i < j < |Pick(entries, f)| ==> line(Pick(entries, f)[i]) < line(Pick(entries, f)[j])
  {
    if entries != [] {
      var front := entries[..|entries| - 1];
      assert Numbered(front);
      PickInLineOrder(front, f, line);
      var last := entries[|entries| - 1];
      var p := Pick(entries, f);
      var pf := Pick(front, f);
      match f(last)
      case None =>
        assert p == pf;
      case Some(y) =>
        assert p == pf + [y];
        assert last != NoEntry && line(y) == EntryLine(last);
        forall i | 0 <= i < |p| ensures 1 <= line(p[i]) <= |entries| {
          if i < |pf| {
            assert p[i] == pf[i];
          }
        }
        forall i, j | 0 <= i < j < |p| ensures line(p[i]) < line(p[j]) {
          assert p[i] == pf[i];
          if j < |pf| {
            assert p[j] == pf[j];
          }
        }
    }
  }

  /** Each bucket is in line order, at most one entry per line, and every
      line number is between 1 and `n`. */
  predicate InLineOrder(p: Parsed, n: nat) {
    (forall i, j :: 0 <= i < j < |p.rewriteRules| ==> p.rewriteRules[i].line < p.rewriteRules[j].line) &&
    (forall i, j :: 0 <= i < j < |p.directives| ==> p.directives[i].line < p.directives[j].line) &&
    (forall i, j :: 0 <= i < j < |p.accessControl| ==> p.accessControl[i].line < p.accessControl[j].line) &&
    (forall i, j :: 0 <= i < j < |p.phpSettings| ==> p.phpSettings[i].line < p.phpSettings[j].line) &&
    (forall i, j :: 0 <= i < j < |p.errorDocuments| ==> p.errorDocuments[i].line < p.errorDocuments[j].line) &&
    (forall i, j :: 0 <= i < j < |p.redirects| ==> p.redirects[i].line < p.redirects[j].line) &&
    (forall i :: 0 <= i < |p.rewriteRules| ==> 1 <= p.rewriteRules[i].line <= n) &&
    (forall i :: 0 <= i < |p.directives| ==> 1 <= p.directives[i].line <= n) &&
    (forall i :: 0 <= i < |p.accessControl| ==> 1 <= p.accessControl[i].line <= n) &&
    (forall i :: 0 <= i < |p.phpSettings| ==> 1 <= p.phpSettings[i].line <= n) &&
    (forall i :: 0 <= i < |p.errorDocuments| ==> 1 <= p.errorDocuments[i].line <= n) &&
    (forall i :: 0 <= i < |p.redirects| ==> 1 <= p.redirects[i].line <= n)
  }

  lemma ParsedInLineOrder(entries: seq<Entry>)
    requires Numbered(entries)
    ensures InLineOrder(ParsedOf(entries), |entries|)
  {
    PickInLineOrder(entries, AsRule, (r: RewriteRule) => r.line);
    PickInLineOrder(entries, AsDirective, (d: Directive) => d.line);
    PickInLineOrder(entries, AsAccess, (a: Access) => a.line);
    PickInLineOrder(entries, AsPhp, (s: PhpSetting) => s.line);
    PickInLineOrder(entries, AsErrorDocument, (d: ErrorDocument) => d.line);
    PickInLineOrder(entries, AsRedirect, (r: Redirect) => r.line);
  }

  /** The buckets of parse are in line order, and every line number is one
      of the content's lines. */
  lemma BucketsInLineOrder(rec: Captures, content: string)
    ensures InLineOrder(ParseContent(rec, content).0, |Split(content, '\n')|)
  {
    var lines := Split(content, '\n');
    EntriesNumbered(rec, lines);
    ParsedInLineOrder(EntriesOf(rec, lines));
  }

  /** One warning per Order, Allow or Deny entry, on its line; Require
      raises none. */
  lemma WarningsFollowAccess(rec: Captures, content: string)
    ensures ParseContent(rec, content).1 == Pick(ParseContent(rec, content).0.accessControl, AccessWarning)
  {
    var entries := EntriesOf(rec, Split(content, '\n'));
    PickCompose(entries, AsAccess, AccessWarning, EntryWarning);
  }

  // ---------------------------------------------------------------------------
  // The parser object

  class Parser {
    /** Parse issues: nothing ever adds one. */
    var issues: seq<string>
    var warnings: seq<Warning>

    /** Nothing ever adds an issue, and every warning is a deprecation. */
    predicate Valid()
      reads this
    {
      issues == [] && forall w :: w in warnings ==> IsDeprecation(w)
    }

    constructor ()
      ensures issues == [] && warnings == []
      ensures Valid()
    {
      issues := [];
      warnings := [];
    }

    /** parse: the buckets of `content`; getIssues is then empty and
        getWarnings holds this content's warnings only. */
    method Parse(content: string, rec: Captures) returns (parsed: Parsed)
      modifies this
      ensures (parsed, warnings) == ParseContent(rec, content)
      ensures issues == []
      ensures Valid()
    {
      parsed := Parsed([], [], [], [], [], []);
      var found := [];
      var lines := Split(content, '\n');
      ghost var entries: seq<Entry> := [];
      for i := 0 to |lines|
        invariant entries == EntriesOf(rec, lines[..i])
        invariant parsed == ParsedOf(entries) && found == Pick(entries, EntryWarning)
      {
        var e := Classify(rec, lines[i], i + 1);
        TakeSnoc(lines, i);
        parsed, found := Collect(parsed, found, entries, e);
        entries := entries + [e];
      }
      TakeAll(lines);
      WarningsAreDeprecations(entries);
      issues := [];
      warnings := found;
    }

    /** getIssues: always empty. */
    function GetIssues(): (r: seq<string>)
      reads this
      requires Valid()
      ensures r == []
    {
      issues
    }

    /** getWarnings: deprecation warnings only. */
    function GetWarnings(): (r: seq<Warning>)
      reads this
      requires Valid()
      ensures forall w :: w in r ==> IsDeprecation(w)
    {
      warnings
    }
  }

  /** One line's entry appended to its bucket of `$parsed`, and its warning,
      if any, to the warnings. */
  method Collect(parsed: Parsed, found: seq<Warning>, ghost entries: seq<Entry>, e: Entry)
    returns (next: Parsed, nextFound: seq<Warning>)
    requires parsed == ParsedOf(entries) && found == Pick(entries, EntryWarning)
    ensures next == ParsedOf(entries + [e]) && nextFound == Pick(entries + [e], EntryWarning)
  {
    AddEntry(entries, e);
    next, nextFound := parsed, found;
    match e {
      case NoEntry =>
      case RuleEntry(r) =>
        next := next.(rewriteRules := next.rewriteRules + [r]);
      case DirectiveEntry(d) =>
        next := next.(directives := next.directives + [d]);
      case AccessEntry(a) =>
        if a.Apache22() {
          nextFound := nextFound + [AccessWarning(a).value];
        }
        next := next.(accessControl := next.accessControl + [a]);
      case PhpEntry(v) =>
        next := next.(phpSettings := next.phpSettings + [v]);
      case ErrorEntry(d) =>
        next := next.(errorDocuments := next.errorDocuments + [d]);
      case RedirectEntry(r) =>
        next := next.(redirects := next.redirects + [r]);
    }
  }

  /** One more entry lands in its own bucket only. */
  lemma AddEntry(entries: seq<Entry>, e: Entry)
    ensures Pick(entries + [e], AsDirective) == Pick(entries, AsDirective) + (if e.DirectiveEntry? then [e.directive] else [])
    ensures Pick(entries + [e], AsRule) == Pick(entries, AsRule) + (if e.RuleEntry? then [e.rule] else [])
    ensures Pick(entries + [e], AsAccess) == Pick(entries, AsAccess) + (if e.AccessEntry? then [e.access] else [])
    ensures Pick(entries + [e], AsPhp) == Pick(entries, AsPhp) + (if e.PhpEntry? then [e.setting] else [])
    ensures Pick(entries + [e], AsErrorDocument) == Pick(entries, AsErrorDocument) + (if e.ErrorEntry? then [e.document] else [])
    ensures Pick(entries + [e], AsRedirect) == Pick(entries, AsRedirect) + (if e.RedirectEntry? then [e.redirect] else [])
    ensures Pick(entries + [e], EntryWarning) ==
      Pick(entries, EntryWarning) + (if e.AccessEntry? && e.access.Apache22() then [AccessWarning(e.access).value] else [])
  {
    PickSnoc(entries, e, AsDirective);
    PickSnoc(entries, e, AsRule);
    PickSnoc(entries, e, AsAccess);
    PickSnoc(entries, e, AsPhp);
    PickSnoc(entries, e, AsErrorDocument);
    PickSnoc(entries, e, AsRedirect);
    PickSnoc(entries, e, EntryWarning);
  }
}
