/** The configuration store (src/Core/Config.php): a nested PHP array read
    and written through dot-separated keys such as "app.timezone". */
module Config {
  import opened Wrappers
  import opened Text

  /** A configuration value: null, a scalar (kept as its text) or an array. */
  datatype Value = Null | Scalar(text: string) | Arr(entries: map<string, Value>)

  /** `explode('.', $key)` */
  function Segments(key: string): (r: seq<string>)
    ensures |r| >= 1
  {
    Split(key, '.')
  }

  /** A key without a dot is a path of one segment. */
  lemma PlainKeySegments(key: string)
    ensures '.' !in key ==> Segments(key) == [key]
  {
    if '.' !in key {
      SplitNoDelimiter(key, '.');
    }
  }

  /** The walk of get and has: None as soon as a segment is missing or the
      value reached is not an array; the value found otherwise (which may be
      null: `array_key_exists` counts null entries). */
  function Walk(v: Value, segs: seq<string>): (r: Option<Value>)
    ensures segs == [] ==> r == Some(v)
    ensures segs != [] && !v.Arr? ==> r == None
  {
    if segs == [] then Some(v)
    else if v.Arr? && segs[0] in v.entries then Walk(v.entries[segs[0]], segs[1..])
    else None
  }

  /** The store after set: every intermediate that is missing, null or not
      an array becomes an empty array, and the last segment takes `value`. */
  function SetPath(m: map<string, Value>, segs: seq<string>, value: Value): (r: map<string, Value>)
    requires |segs| >= 1
    ensures segs[0] in r
    ensures forall k :: k in m && k != segs[0] ==> k in r && r[k] == m[k]
    ensures r.Keys == m.Keys + {segs[0]}
    decreases |segs|
  {
    if |segs| == 1 then m[segs[0] := value]
    else
      var child := if segs[0] in m && m[segs[0]].Arr? then m[segs[0]].entries else map[];
      m[segs[0] := Arr(SetPath(child, segs[1..], value))]
  }

  /** After set, the walk along the same path finds the value set. */
  lemma {:induction false} WalkSetPath(m: map<string, Value>, segs: seq<string>, value: Value)
    requires |segs| >= 1
    ensures Walk(Arr(SetPath(m, segs, value)), segs) == Some(value)
    decreases |segs|
  {
    if |segs| > 1 {
      var child := if segs[0] in m && m[segs[0]].Arr? then m[segs[0]].entries else map[];
      WalkSetPath(child, segs[1..], value);
    }
  }

  /** Two paths diverge when they differ at some position both have. */
  predicate Diverges(q: seq<string>, segs: seq<string>)
    decreases |q|
  {
    q != [] && segs != [] && (q[0] != segs[0] || Diverges(q[1..], segs[1..]))
  }

  /** set leaves every path that leaves its own path unchanged. */
  lemma {:induction false} SetPathOther(m: map<string, Value>, segs: seq<string>, value: Value, q: seq<string>)
    requires |segs| >= 1 && Diverges(q, segs)
    ensures Walk(Arr(SetPath(m, segs, value)), q) == Walk(Arr(m), q)
    decreases |segs|
  {
    if q[0] == segs[0] {
      var child := if segs[0] in m && m[segs[0]].Arr? then m[segs[0]].entries else map[];
      assert |segs| > 1;
      SetPathOther(child, segs[1..], value, q[1..]);
      if segs[0] in m && m[segs[0]].Arr? {
        assert Walk(Arr(m), q) == Walk(Arr(child), q[1..]);
      } else if segs[0] in m {
        assert Walk(Arr(m), q) == None;
        assert Walk(Arr(child), q[1..]) == None;
      }
    }
  }

  /** Every proper prefix of the path holds an array after set. */
  lemma {:induction false} SetPathIntermediates(m: map<string, Value>, segs: seq<string>, value: Value, j: nat)
    requires 1 <= j < |segs|
    ensures var w := Walk(Arr(SetPath(m, segs, value)), segs[..j]); w.Some? && w.value.Arr?
    decreases |segs|
  {
    var child := if segs[0] in m && m[segs[0]].Arr? then m[segs[0]].entries else map[];
    if j > 1 {
      SetPathIntermediates(child, segs[1..], value, j - 1);
      assert segs[..j][1..] == segs[1..][..j - 1];
    }
  }

  /** Config */
  class Config {
    var config: map<string, Value>

    constructor (config: map<string, Value>)
      ensures this.config == config
    {
      this.config := config;
    }

    /** get: the value at the dot path, or `default` when the walk fails. */
    function Get(key: string, default: Value): (r: Value)
      reads this
      ensures !Has(key) ==> r == default
      ensures Has(key) ==> Walk(Arr(config), Segments(key)) == Some(r)
    {
      match Walk(Arr(config), Segments(key))
      case Some(v) => v
      case None => default
    }

    /** has: the walk of get succeeds, even when it ends on null.  A dotted
        key needs its first segment at the top level; a key without a dot is
        present exactly when it is a top-level key. */
    predicate Has(key: string): (r: bool)
      reads this
      ensures r ==> Segments(key)[0] in config
      ensures '.' !in key ==> (r <==> key in config)
    {
      PlainKeySegments(key);
      Walk(Arr(config), Segments(key)).Some?
    }

    /** all */
    function All(): (r: map<string, Value>)
      reads this
      ensures Arr(r) == Arr(config)
    {
      config
    }

    /** set: afterwards get returns the value and has holds, and every key
        off the path reads as before. */
    method Set(key: string, value: Value)
      modifies this
      ensures config == SetPath(old(config), Segments(key), value)
      ensures Has(key) && forall d :: Get(key, d) == value
      ensures forall q :: Diverges(q, Segments(key)) ==> Walk(Arr(config), q) == Walk(Arr(old(config)), q)
    {
      var segs := Segments(key);
      config := SetPath(config, segs, value);
      WalkSetPath(old(config), segs, value);
      forall q | Diverges(q, segs)
        ensures Walk(Arr(config), q) == Walk(Arr(old(config)), q)
      {
        SetPathOther(old(config), segs, value, q);
      }
    }
  }
}
