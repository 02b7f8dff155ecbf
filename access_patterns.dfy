/** The Apache 2.2 access patterns that both 2.2-to-2.4 upgraders test a
    trimmed line against (src/ServerConfig/ConfigConverter.php and
    src/Analyzer/ServerConfigAnalyzer.php):

      /^Order\s+/i   /^Allow\s+from\s+all/i   /^Deny\s+from\s+all/i
      /^Allow\s+from\s+(.+)$/i   /^Deny\s+from\s+(.+)$/i

    They are matched here by hand.  Each is anchored at the start and ignores
    case, and each `\s+` run before a word must take the whole run of
    whitespace (a letter never matches `\s`), so PCRE has a single way to
    match the words. */
module AccessPatterns {
  import opened Wrappers
  import opened Text
  import opened Seqs

  /** `s` without its leading run of PCRE whitespace. */
  function SkipSpaces(s: string): (r: string)
    ensures |r| <= |s| && r == s[|s| - |r|..]
    ensures r == [] || !IsPcreSpace(r[0])
    ensures forall i :: 0 <= i < |s| - |r| ==> IsPcreSpace(s[i])
  {
    if s != [] && IsPcreSpace(s[0]) then SkipSpaces(s[1..]) else s
  }

  /** `\s+` at the front of `s`: what follows the whole run, or None when
      `s` does not start with whitespace. */
  function Spaces(s: string): (r: Option<string>)
    ensures r.Some? <==> s != [] && IsPcreSpace(s[0])
    ensures r.Some? ==> |r.value| < |s| && EndsWith(s, r.value)
  {
    if s != [] && IsPcreSpace(s[0]) then Some(SkipSpaces(s)) else None
  }

  /** What follows the lower-case word `w` at the start of `s`, ignoring
      ASCII case (`/i`); None when `s` does not start with it. */
  function AfterWord(s: string, w: string): (r: Option<string>)
    ensures r.Some? ==> |w| <= |s| && r.value == s[|w|..]
    decreases |w|
  {
    if w == [] then Some(s)
    else if s != [] && Lower(s[0]) == w[0] then AfterWord(s[1..], w[1..])
    else None
  }

  /** A piece of an access pattern: a word, matched ignoring case, or a
      `\s+` run. */
  datatype Piece = Word(w: string) | Blank

  /** What follows the match of `ps` at the start of `s`, or None when `s`
      does not start with it. */
  function After(s: string, ps: seq<Piece>): (r: Option<string>)
    ensures r.Some? ==> EndsWith(s, r.value)
    decreases |ps|
  {
    if ps == [] then Some(s)
    else
      var next := match ps[0]
        case Word(w) => AfterWord(s, w)
        case Blank => Spaces(s);
      match next
      case None => None
      case Some(rest) =>
        var r := After(rest, ps[1..]);
        if r.None? then None
        else
          assert EndsWith(s, rest);
          SuffixOfSuffix(s, rest, r.value);
          r
  }

  /** Matching two patterns one after the other is matching their
      concatenation. */
  lemma {:induction false} AfterAppend(s: string, ps: seq<Piece>, qs: seq<Piece>)
    ensures After(s, ps + qs) == (if After(s, ps).None? then None else After(After(s, ps).value, qs))
    decreases |ps|
  {
    if ps != [] {
      assert (ps + qs)[0] == ps[0] && (ps + qs)[1..] == ps[1..] + qs;
      var next := match ps[0]
        case Word(w) => AfterWord(s, w)
        case Blank => Spaces(s);
      if next.Some? {
        AfterAppend(next.value, ps[1..], qs);
      }
    } else {
      assert ps + qs == qs;
    }
  }

  /** A pattern's first word fixes the subject's first letter. */
  lemma WordInitial(t: string, w: string, ps: seq<Piece>)
    requires w != [] && After(t, [Word(w)] + ps).Some?
    ensures t != [] && Lower(t[0]) == w[0]
  {
    assert ([Word(w)] + ps)[0] == Word(w);
  }

  /** `/^Order\s+/i` */
  predicate IsOrder(t: string) {
    After(t, [Word("order"), Blank]).Some?
  }

  /** `/^keyword\s+from\s+all/i` for a lower-case keyword: anything may
      follow "all". */
  predicate FromAll(t: string, keyword: string) {
    After(t, [Word(keyword), Blank, Word("from"), Blank, Word("all")]).Some?
  }

  /** Only a non-empty line can be a "from all" line. */
  lemma FromAllNonEmpty(t: string, keyword: string)
    requires keyword != [] && FromAll(t, keyword)
    ensures t != []
  {
    assert AfterWord(t, keyword).Some?;
  }

  /** `\s+(.+)$` on what follows "from", for a subject without a line feed:
      group 1.  The greedy `\s+` takes the whole run when text follows it;
      after a run of whitespace only, it gives back the last character for
      `(.+)`. */
  function HostGroup(rest: string): (r: Option<string>)
    ensures r.Some? ==> r.value != [] && '\n' !in r.value
    ensures r.Some? ==> EndsWith(rest, r.value)
  {
    if '\n' in rest then None
    else match Spaces(rest)
      case None => None
      case Some(q) =>
        if q != [] then
          NotInSuffix(rest, q, '\n');
          Some(q)
        else if |rest| >= 2 then
          var last := rest[|rest| - 1..];
          assert EndsWith(rest, last);
          NotInSuffix(rest, last, '\n');
          Some(last)
        else None
  }

  /** `/^keyword\s+from\s+(.+)$/i`: group 1. */
  function FromHost(t: string, keyword: string): (r: Option<string>)
    ensures r.Some? ==> r.value != [] && '\n' !in r.value
    ensures r.Some? ==> EndsWith(t, r.value)
  {
    var rest := After(t, [Word(keyword), Blank, Word("from")]);
    if rest.None? || HostGroup(rest.value).None? then None
    else
      SuffixOfSuffix(t, rest.value, HostGroup(rest.value).value);
      HostGroup(rest.value)
  }

  /** A "from all" line is a "from" line followed by `\s+all`. */
  lemma FromAllParts(t: string, keyword: string)
    requires FromAll(t, keyword)
    ensures After(t, [Word(keyword), Blank, Word("from")]).Some?
    ensures Spaces(After(t, [Word(keyword), Blank, Word("from")]).value).Some?
    ensures AfterWord(Spaces(After(t, [Word(keyword), Blank, Word("from")]).value).value, "all").Some?
  {
    var head := [Word(keyword), Blank, Word("from")];
    var tail := [Blank, Word("all")];
    assert [Word(keyword), Blank, Word("from"), Blank, Word("all")] == head + tail;
    AfterAppend(t, head, tail);
    assert tail[0] == Blank && tail[1..] == [Word("all")];
  }

  /** Every line "from all" matches is also a "from" line, whose group 1
      starts with "all": the upgrader must test the "from all" form first. */
  lemma FromAllIsHost(t: string, keyword: string)
    requires FromAll(t, keyword) && '\n' !in t
    ensures FromHost(t, keyword).Some? && AfterWord(FromHost(t, keyword).value, "all").Some?
  {
    FromAllParts(t, keyword);
    var rest := After(t, [Word(keyword), Blank, Word("from")]).value;
    NotInSuffix(t, rest, '\n');
    var q := Spaces(rest).value;
    assert |q| >= 3 by {
      assert AfterWord(q, "all").Some?;
    }
    HostGroupOfSpaced(rest);
    FromHostOf(t, keyword);
  }

  /** With text after the whitespace run, group 1 is that text. */
  lemma HostGroupOfSpaced(rest: string)
    requires '\n' !in rest && Spaces(rest).Some? && Spaces(rest).value != []
    ensures HostGroup(rest) == Spaces(rest)
  {
  }

  /** The "from" line's group 1 is that of what follows "from". */
  lemma FromHostOf(t: string, keyword: string)
    requires After(t, [Word(keyword), Blank, Word("from")]).Some?
    ensures FromHost(t, keyword) == HostGroup(After(t, [Word(keyword), Blank, Word("from")]).value)
  {
  }

  /** A trimmed line none of the patterns can match. */
  predicate Inert(t: string) {
    !IsOrder(t) && !FromAll(t, "allow") && !FromAll(t, "deny") &&
    FromHost(t, "allow").None? && FromHost(t, "deny").None?
  }

  /** Every pattern starts with 'o', 'a' or 'd', whatever the case, so a
      line starting with any other character matches none of them. */
  lemma InertByInitial(t: string)
    requires t == [] || (Lower(t[0]) != 'o' && Lower(t[0]) != 'a' && Lower(t[0]) != 'd')
    ensures Inert(t)
  {
    if IsOrder(t) {
      WordInitial(t, "order", [Blank]);
    }
    forall keyword | keyword == "allow" || keyword == "deny"
      ensures !FromAll(t, keyword) && FromHost(t, keyword).None?
    {
      if FromAll(t, keyword) {
        WordInitial(t, keyword, [Blank, Word("from"), Blank, Word("all")]);
      }
      if FromHost(t, keyword).Some? {
        WordInitial(t, keyword, [Blank, Word("from")]);
      }
    }
  }
}
