/** Facts about prefixes of a sequence that every loop over a sequence
    needs, proved once so that a loop body does not re-derive them in its
    own (larger) context; and the two list comprehensions PHP's foreach
    loops build: a map and a filter-map. */
module Seqs {
  import opened Wrappers

  /** The prefix one longer is the prefix with the next element added. */
  lemma TakeSnoc<T>(s: seq<T>, i: nat)
    requires i < |s|
    ensures s[..i + 1] == s[..i] + [s[i]]
  {
  }

  /** The full prefix is the sequence. */
  lemma TakeAll<T>(s: seq<T>)
    ensures s[..|s|] == s
  {
  }

  /** A non-empty sequence is its front followed by its last element. */
  lemma FrontLast<T>(s: seq<T>)
    requires s != []
    ensures s[..|s| - 1] + [s[|s| - 1]] == s
  {
  }

  /** Appending one element to the second part of a concatenation. */
  lemma AppendSnoc<T>(a: seq<T>, b: seq<T>, x: T)
    ensures a + (b + [x]) == (a + b) + [x]
  {
  }

  /** Appending a run to the second part of a concatenation. */
  lemma AppendAssoc<T>(a: seq<T>, b: seq<T>, c: seq<T>)
    ensures a + (b + c) == (a + b) + c
  {
  }

  /** The `f`-images of the elements `f` accepts, in order. */
  function Pick<A, B>(xs: seq<A>, f: A -> Option<B>): seq<B> {
    if xs == [] then []
    else Pick(xs[..|xs| - 1], f) + (match f(xs[|xs| - 1]) case Some(y) => [y] case None => [])
  }

  lemma PickSnoc<A, B>(xs: seq<A>, x: A, f: A -> Option<B>)
    ensures Pick(xs + [x], f) == Pick(xs, f) + (match f(x) case Some(y) => [y] case None => [])
  {
    assert (xs + [x])[..|xs|] == xs;
  }

  /** Picking twice is picking with the composed selection. */
  lemma {:induction false} PickCompose<A, B, C>(xs: seq<A>, f: A -> Option<B>, g: B -> Option<C>, h: A -> Option<C>)
    requires forall x :: h(x) == (match f(x) case Some(y) => g(y) case None => None)
    ensures Pick(xs, h) == Pick(Pick(xs, f), g)
  {
    if xs != [] {
      var front := xs[..|xs| - 1];
      PickCompose(front, f, g, h);
      match f(xs[|xs| - 1])
      case None =>
        assert Pick(xs, f) == Pick(front, f);
      case Some(y) =>
        PickSnoc(Pick(front, f), y, g);
    }
  }

  /** The `f`-images of all elements, in order. */
  function Map<A, B>(xs: seq<A>, f: A -> B): (r: seq<B>)
    ensures |r| == |xs|
    ensures forall i :: 0 <= i < |xs| ==> r[i] == f(xs[i])
  {
    if xs == [] then [] else Map(xs[..|xs| - 1], f) + [f(xs[|xs| - 1])]
  }

  lemma MapSnoc<A, B>(xs: seq<A>, x: A, f: A -> B)
    ensures Map(xs + [x], f) == Map(xs, f) + [f(x)]
  {
    assert (xs + [x])[..|xs|] == xs;
  }

  /** `suffix` is a tail of `s`. */
  predicate EndsWith<A(==)>(s: seq<A>, suffix: seq<A>) {
    |suffix| <= |s| && s[|s| - |suffix|..] == suffix
  }

  /** A suffix of a suffix is a suffix. */
  lemma SuffixOfSuffix<A>(a: seq<A>, b: seq<A>, c: seq<A>)
    requires EndsWith(a, b) && EndsWith(b, c)
    ensures EndsWith(a, c)
  {
    assert a[|a| - |b|..][|b| - |c|..] == a[|a| - |c|..];
  }

  /** A suffix holds nothing its sequence does not. */
  lemma NotInSuffix<A>(s: seq<A>, suffix: seq<A>, x: A)
    requires EndsWith(s, suffix) && x !in s
    ensures x !in suffix
  {
    forall i | 0 <= i < |suffix| ensures suffix[i] != x {
      assert suffix[i] == s[|s| - |suffix| + i];
    }
  }

  lemma MapOne<A, B>(x: A, f: A -> B)
    ensures Map([x], f) == [f(x)]
  {
    MapSnoc([], x, f);
  }

  /** Dropping a prefix commutes with the map. */
  lemma MapDrop<A, B>(xs: seq<A>, f: A -> B, k: nat)
    requires k <= |xs|
    ensures Map(xs, f)[k..] == Map(xs[k..], f)
  {
    assert forall i :: 0 <= i < |xs| - k ==> Map(xs, f)[k..][i] == f(xs[k..][i]);
  }

  /** A selection that accepts everything picks the map. */
  lemma {:induction false} PickEverything<A, B>(xs: seq<A>, f: A -> Option<B>, g: A -> B)
    requires forall x :: f(x) == Some(g(x))
    ensures Pick(xs, f) == Map(xs, g)
  {
    if xs != [] {
      PickEverything(xs[..|xs| - 1], f, g);
    }
  }

  /** The `f`-images of all elements, concatenated in order. */
  function FlatMap<A, B>(xs: seq<A>, f: A -> seq<B>): seq<B> {
    if xs == [] then [] else FlatMap(xs[..|xs| - 1], f) + f(xs[|xs| - 1])
  }

  lemma FlatMapSnoc<A, B>(xs: seq<A>, x: A, f: A -> seq<B>)
    ensures FlatMap(xs + [x], f) == FlatMap(xs, f) + f(x)
  {
    assert (xs + [x])[..|xs|] == xs;
  }

  /** Images of `n` elements each give `n` times as many elements. */
  lemma {:induction false} FlatMapLength<A, B>(xs: seq<A>, f: A -> seq<B>, n: nat)
    requires forall x :: |f(x)| == n
    ensures |FlatMap(xs, f)| == n * |xs|
  {
    if xs != [] {
      var front := xs[..|xs| - 1];
      FlatMapLength(front, f, n);
      assert |FlatMap(xs, f)| == |FlatMap(front, f)| + |f(xs[|xs| - 1])|;
      assert n * |xs| == n * |front| + n;
    }
  }

  /** What `Pick` keeps is exactly the images of the accepted elements. */
  lemma {:induction false} PickMember<A, B>(xs: seq<A>, f: A -> Option<B>, y: B)
    ensures y in Pick(xs, f) <==> exists i :: 0 <= i < |xs| && f(xs[i]) == Some(y)
  {
    if xs != [] {
      var front := xs[..|xs| - 1];
      PickMember(front, f, y);
      if exists i :: 0 <= i < |xs| && f(xs[i]) == Some(y) {
        var i :| 0 <= i < |xs| && f(xs[i]) == Some(y);
        if i < |front| {
          assert front[i] == xs[i];
        }
      }
      if exists i :: 0 <= i < |front| && f(front[i]) == Some(y) {
        var i :| 0 <= i < |front| && f(front[i]) == Some(y);
        assert xs[i] == front[i];
      }
    }
  }

  /** What `FlatMap` collects is exactly the elements of the images. */
  lemma {:induction false} FlatMapMember<A, B>(xs: seq<A>, f: A -> seq<B>, y: B)
    ensures y in FlatMap(xs, f) <==> exists i :: 0 <= i < |xs| && y in f(xs[i])
  {
    if xs != [] {
      var front := xs[..|xs| - 1];
      FlatMapMember(front, f, y);
      if exists i :: 0 <= i < |xs| && y in f(xs[i]) {
        var i :| 0 <= i < |xs| && y in f(xs[i]);
        if i < |front| {
          assert front[i] == xs[i];
        }
      }
      if exists i :: 0 <= i < |front| && y in f(front[i]) {
        var i :| 0 <= i < |front| && y in f(front[i]);
        assert xs[i] == front[i];
      }
    }
  }

  /** An element of a map is the image of an element. */
  lemma MapWitness<A, B>(xs: seq<A>, f: A -> B, y: B) returns (i: nat)
    requires y in Map(xs, f)
    ensures i < |xs| && y == f(xs[i])
  {
    var r := Map(xs, f);
    i :| 0 <= i < |r| && r[i] == y;
  }
}
