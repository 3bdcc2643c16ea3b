/** Sequences without repetition, and sequences that merge two others, each in its own order. */
module Sequences {
  predicate NoRepeats<T(==)>(xs: seq<T>) {
    forall i, j :: 0 <= i < j < |xs| ==> xs[i] != xs[j]
  }

  predicate Interleaves<T(==)>(a: seq<T>, b: seq<T>, c: seq<T>)
    decreases |c|
  {
    if c == [] then a == [] && b == []
    else
      var n := |c| - 1;
      || (a != [] && a[|a| - 1] == c[n] && Interleaves(a[..|a| - 1], b, c[..n]))
      || (b != [] && b[|b| - 1] == c[n] && Interleaves(a, b[..|b| - 1], c[..n]))
  }

  lemma AppendLeft<T>(a: seq<T>, b: seq<T>, c: seq<T>, e: T)
    requires Interleaves(a, b, c)
    ensures Interleaves(a + [e], b, c + [e])
  {
    assert (a + [e])[..|a|] == a && (c + [e])[..|c|] == c;
  }

  lemma AppendRight<T>(a: seq<T>, b: seq<T>, c: seq<T>, e: T)
    requires Interleaves(a, b, c)
    ensures Interleaves(a, b + [e], c + [e])
  {
    assert (b + [e])[..|b|] == b && (c + [e])[..|c|] == c;
  }

  lemma {:induction false} AppendAllLeft<T>(a: seq<T>, b: seq<T>, c: seq<T>, es: seq<T>)
    requires Interleaves(a, b, c)
    ensures Interleaves(a + es, b, c + es)
  {
    if es == [] {
      assert a + es == a && c + es == c;
    } else {
      var n := |es| - 1;
      AppendAllLeft(a, b, c, es[..n]);
      AppendLeft(a + es[..n], b, c + es[..n], es[n]);
      assert a + es == (a + es[..n]) + [es[n]] && c + es == (c + es[..n]) + [es[n]];
    }
  }

  /** Nothing is lost and nothing added; merging with nothing changes nothing. */
  lemma {:induction false} InterleavingFacts<T>(a: seq<T>, b: seq<T>, c: seq<T>)
    requires Interleaves(a, b, c)
    ensures |c| == |a| + |b|
    ensures b == [] ==> c == a
    ensures a == [] ==> c == b
    decreases |c|
  {
    if c != [] {
      var n := |c| - 1;
      assert c == c[..n] + [c[n]];
      if a != [] && a[|a| - 1] == c[n] && Interleaves(a[..|a| - 1], b, c[..n]) {
        InterleavingFacts(a[..|a| - 1], b, c[..n]);
        assert a == a[..|a| - 1] + [a[|a| - 1]];
      } else {
        InterleavingFacts(a, b[..|b| - 1], c[..n]);
        assert b == b[..|b| - 1] + [b[|b| - 1]];
      }
    }
  }
}
