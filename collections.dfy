/** Sequence helpers shaped like the source's comprehensions and append loops. */
module Collections {

  function Min(a: int, b: int): (m: int)
    ensures m <= a && m <= b && (m == a || m == b)
  {
    if a <= b then a else b
  }

  /** `[f(x) for x in s]`, built from the back like a list grown by `append`. */
  function MapSeq<A, B>(s: seq<A>, f: A -> B): (r: seq<B>)
    ensures |r| == |s|
  {
    if s == [] then [] else MapSeq(s[..|s| - 1], f) + [f(s[|s| - 1])]
  }

  lemma {:induction false} MapSeqAt<A, B>(s: seq<A>, f: A -> B, i: nat)
    requires i < |s|
    ensures MapSeq(s, f)[i] == f(s[i])
  {
    if i < |s| - 1 {
      MapSeqAt(s[..|s| - 1], f, i);
    }
  }

  /** One step of an append loop: mapping one more element appends its image. */
  lemma MapSeqSnoc<A, B>(s: seq<A>, n: nat, f: A -> B)
    requires n < |s|
    ensures MapSeq(s[..n + 1], f) == MapSeq(s[..n], f) + [f(s[n])]
  {
    assert s[..n + 1][..n] == s[..n];
  }

  /** Mapping distributes over concatenation. */
  lemma {:induction false} MapSeqConcat<A, B>(a: seq<A>, b: seq<A>, f: A -> B)
    ensures MapSeq(a + b, f) == MapSeq(a, f) + MapSeq(b, f)
  {
    if b != [] {
      assert (a + b)[..|a + b| - 1] == a + b[..|b| - 1];
      MapSeqConcat(a, b[..|b| - 1], f);
    } else {
      assert a + b == a;
    }
  }

  /** `[x for x in s if keep(x)]`, built from the back like a guarded `append` loop. */
  function Filter<T>(s: seq<T>, keep: T -> bool): (r: seq<T>)
    ensures |r| <= |s|
    ensures forall x :: x in r ==> x in s && keep(x)
  {
    if s == [] then []
    else Filter(s[..|s| - 1], keep) + (if keep(s[|s| - 1]) then [s[|s| - 1]] else [])
  }

  lemma FilterSnoc<T>(s: seq<T>, n: nat, keep: T -> bool)
    requires n < |s|
    ensures Filter(s[..n + 1], keep) == Filter(s[..n], keep) + (if keep(s[n]) then [s[n]] else [])
  {
    assert s[..n + 1][..n] == s[..n];
  }

  /** Every element of `s` that passes the guard is kept. */
  lemma {:induction false} FilterKeeps<T>(s: seq<T>, keep: T -> bool, x: T)
    requires x in s && keep(x)
    ensures x in Filter(s, keep)
  {
    if x != s[|s| - 1] {
      assert x in s[..|s| - 1] by {
        var k :| 0 <= k < |s| && s[k] == x;
        assert s[..|s| - 1][k] == x;
      }
      FilterKeeps(s[..|s| - 1], keep, x);
    }
  }

  /** Filtering keeps source order: it distributes over concatenation. */
  lemma {:induction false} FilterConcat<T>(a: seq<T>, b: seq<T>, keep: T -> bool)
    ensures Filter(a + b, keep) == Filter(a, keep) + Filter(b, keep)
  {
    if b != [] {
      var b' := b[..|b| - 1];
      assert (a + b)[..|a + b| - 1] == a + b';
      FilterConcat(a, b', keep);
    } else {
      assert a + b == a;
    }
  }

  /** `[y for x in s for y in f(x)]`: the images of the elements, concatenated in order. */
  function ConcatMap<A, B>(s: seq<A>, f: A -> seq<B>): seq<B>
  {
    if s == [] then [] else ConcatMap(s[..|s| - 1], f) + f(s[|s| - 1])
  }

  lemma ConcatMapSnoc<A, B>(s: seq<A>, n: nat, f: A -> seq<B>)
    requires n < |s|
    ensures ConcatMap(s[..n + 1], f) == ConcatMap(s[..n], f) + f(s[n])
  {
    assert s[..n + 1][..n] == s[..n];
  }

  /** Flattening distributes over concatenation. */
  lemma {:induction false} ConcatMapConcat<A, B>(a: seq<A>, b: seq<A>, f: A -> seq<B>)
    ensures ConcatMap(a + b, f) == ConcatMap(a, f) + ConcatMap(b, f)
  {
    if b == [] {
      assert a + b == a;
    } else {
      var front := b[..|b| - 1];
      assert (a + b)[..|a + b| - 1] == a + front;
      ConcatMapConcat(a, front, f);
    }
  }

  /** Element `j` of the `k`-th part sits after the parts before it. */
  lemma ConcatMapAt<A, B>(s: seq<A>, k: nat, j: nat, f: A -> seq<B>)
    requires k < |s| && j < |f(s[k])|
    ensures |ConcatMap(s[..k], f)| + j < |ConcatMap(s, f)|
    ensures ConcatMap(s, f)[|ConcatMap(s[..k], f)| + j] == f(s[k])[j]
  {
    var before, after := s[..k], s[k + 1..];
    assert s == before + [s[k]] + after;
    ConcatMapConcat(before + [s[k]], after, f);
    ConcatMapConcat(before, [s[k]], f);
    assert [s[k]][..0] == [];
  }
}
