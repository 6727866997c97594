/** Sequence helpers shared by the card algebra and the board: distinctness
    (every value at most once), the `removeAll` and `remove(Object)` operations
    of Java lists, and the counting facts the board needs about them. */
module Seqs {

  /** No value occurs twice in `s`. */
  ghost predicate Distinct<T>(s: seq<T>) {
    forall x | x in s :: multiset(s)[x] <= 1
  }

  /** Keeps the elements of `s` that are not in `xs`, in order
      (what `List.removeAll` leaves in the list). */
  function RemoveAll<T(==)>(s: seq<T>, xs: set<T>): (r: seq<T>)
    ensures multiset(r) <= multiset(s)
    ensures forall x | x in s :: multiset(r)[x] == if x in xs then 0 else multiset(s)[x]
    ensures |r| <= |s|
  {
    if s == [] then []
    else
      assert s == [s[0]] + s[1..];
      (if s[0] in xs then [] else [s[0]]) + RemoveAll(s[1..], xs)
  }

  /** The position of the first occurrence of `x` in `s`. */
  function FirstIndex<T(==)>(s: seq<T>, x: T): (i: nat)
    requires x in s
    ensures i < |s| && s[i] == x && x !in s[..i]
  {
    if s[0] == x then 0
    else
      assert s == [s[0]] + s[1..];
      var j := FirstIndex(s[1..], x);
      assert s[..j + 1] == [s[0]] + s[1..][..j];
      j + 1
  }

  /** Removes the first occurrence of `x` (what `List.remove(Object)` does):
      the elements before and after it keep their order. */
  function RemoveFirst<T(==)>(s: seq<T>, x: T): (r: seq<T>)
    ensures x in s ==> r == s[..FirstIndex(s, x)] + s[FirstIndex(s, x) + 1..]
    ensures x !in s ==> r == s
  {
    if s == [] then []
    else if s[0] == x then
      assert s == [s[0]] + s[1..];
      s[1..]
    else
      assert s == [s[0]] + s[1..];
      if x in s then
        SkipHead(s, x);
        [s[0]] + RemoveFirst(s[1..], x)
      else
        [s[0]] + RemoveFirst(s[1..], x)
  }

  /** Removing the first occurrence takes exactly one copy of `x` out, if
      there is one. */
  lemma {:induction false} RemoveFirstCount<T>(s: seq<T>, x: T)
    ensures multiset(RemoveFirst(s, x)) == multiset(s) - multiset{x}
    ensures x in s ==> |RemoveFirst(s, x)| == |s| - 1
  {
    if x in s {
      var i := FirstIndex(s, x);
      var before, after := s[..i], s[i + 1..];
      assert s == before + [x] + after;
      assert multiset(s) == multiset(before) + multiset{x} + multiset(after);
      assert RemoveFirst(s, x) == before + after;
    }
  }

  /** When `x` is not the head, its first position in `s` is one past its
      first position in the tail. */
  lemma SkipHead<T>(s: seq<T>, x: T)
    requires x in s && s[0] != x
    ensures x in s[1..]
    ensures var i, j := FirstIndex(s, x), FirstIndex(s[1..], x);
      i == j + 1 && s[..i] == [s[0]] + s[1..][..j] && s[i + 1..] == s[1..][j + 1..]
  {
    assert s == [s[0]] + s[1..];
  }

  lemma DistinctAt<T>(s: seq<T>, i: int, j: int)
    requires Distinct(s) && 0 <= i < |s| && 0 <= j < |s| && i != j
    ensures s[i] != s[j]
  {
    var lo, hi := if i < j then i else j, if i < j then j else i;
    assert s == s[..hi] + s[hi..];
    assert s[lo] in multiset(s[..hi]);
    assert s[hi] in multiset(s[hi..]);
    assert multiset(s) == multiset(s[..hi]) + multiset(s[hi..]);
    assert s[lo] in s;
    assert multiset(s)[s[lo]] <= 1;
    assert multiset(s[..hi])[s[lo]] >= 1;
  }

  lemma DistinctConcat<T>(a: seq<T>, b: seq<T>)
    ensures Distinct(a + b) <==> Distinct(a) && Distinct(b) && (forall x :: x in a ==> x !in b)
  {
    assert forall x :: multiset(a + b)[x] == multiset(a)[x] + multiset(b)[x];
    if Distinct(a + b) {
      forall x | x in a ensures x !in b {
        assert multiset(a)[x] >= 1;
      }
    }
  }

  lemma AppendAssoc<T>(a: seq<T>, b: seq<T>, c: seq<T>)
    ensures (a + b) + c == a + (b + c)
  {
  }

  /** Two distinct sequences with no value in common concatenate to a
      distinct sequence. */
  lemma DistinctAppend<T>(a: seq<T>, b: seq<T>)
    requires Distinct(a) && Distinct(b) && forall x :: x in a ==> x !in b
    ensures Distinct(a + b)
  {
    DistinctConcat(a, b);
  }

  lemma DistinctSmaller<T>(a: seq<T>, b: seq<T>)
    requires multiset(a) <= multiset(b) && Distinct(b)
    ensures Distinct(a)
  {
    forall x | x in a ensures multiset(a)[x] <= 1 {
      assert multiset(a)[x] <= multiset(b)[x];
    }
  }

  /** The first element of a distinct sequence does not occur again. */
  lemma DistinctHead<T>(s: seq<T>)
    requires Distinct(s) && s != []
    ensures s[0] !in s[1..] && Distinct(s[1..])
  {
    assert s == [s[0]] + s[1..];
    DistinctConcat([s[0]], s[1..]);
  }

  lemma {:induction false} RemoveAllConcat<T>(a: seq<T>, b: seq<T>, xs: set<T>)
    ensures RemoveAll(a + b, xs) == RemoveAll(a, xs) + RemoveAll(b, xs)
  {
    if a == [] {
      assert a + b == b;
    } else {
      var h := if a[0] in xs then [] else [a[0]];
      calc {
        RemoveAll(a + b, xs);
        { assert (a + b)[0] == a[0] && (a + b)[1..] == a[1..] + b; }
        h + RemoveAll(a[1..] + b, xs);
        { RemoveAllConcat(a[1..], b, xs); }
        h + (RemoveAll(a[1..], xs) + RemoveAll(b, xs));
        (h + RemoveAll(a[1..], xs)) + RemoveAll(b, xs);
        RemoveAll(a, xs) + RemoveAll(b, xs);
      }
    }
  }

  lemma {:induction false} RemoveAllIgnores<T>(s: seq<T>, xs: set<T>, x: T)
    requires x !in s
    ensures RemoveAll(s, xs) == RemoveAll(s, xs - {x})
  {
    if s != [] {
      RemoveAllIgnores(s[1..], xs, x);
    }
  }

  /** Removing a set of values that all occur in a distinct sequence shortens it
      by exactly the size of the set. */
  lemma {:induction false} RemoveAllSize<T>(s: seq<T>, xs: set<T>)
    requires Distinct(s) && forall x :: x in xs ==> x in s
    ensures |RemoveAll(s, xs)| == |s| - |xs|
  {
    if s == [] {
      assert xs == {};
    } else {
      DistinctHead(s);
      var x, t := s[0], s[1..];
      var rest := if x in xs then xs - {x} else xs;
      forall y | y in rest ensures y in t {
        InTail(s, y);
      }
      if x in xs {
        RemoveAllIgnores(t, xs, x);
      }
      RemoveAllSize(t, rest);
    }
  }

  /** A value of `s` other than its first occurs in its tail. */
  lemma InTail<T>(s: seq<T>, y: T)
    requires y in s && y != s[0]
    ensures y in s[1..]
  {
    assert s == [s[0]] + s[1..];
  }

  /** The values of a sequence, as a set. */
  function Elements<T>(s: seq<T>): set<T> {
    set x | x in s
  }

  /** Removing distinct values that all occur in a distinct sequence takes out
      exactly one copy of each. */
  lemma RemoveAllDistinct<T>(s: seq<T>, xs: seq<T>)
    requires Distinct(s) && Distinct(xs) && forall x | x in xs :: x in s
    ensures multiset(RemoveAll(s, Elements(xs))) + multiset(xs) == multiset(s)
  {
    var r := RemoveAll(s, Elements(xs));
    forall x ensures (multiset(r) + multiset(xs))[x] == multiset(s)[x] {
      if x in xs {
        assert x in s;
      } else if x in s {
      } else {
        assert multiset(r)[x] <= multiset(s)[x];
      }
    }
  }

  /** A value found at one position and at no other occurs once. */
  lemma OnlyOnce<T>(s: seq<T>, k: int)
    requires 0 <= k < |s| && forall k' | 0 <= k' < |s| && k' != k :: s[k'] != s[k]
    ensures multiset(s)[s[k]] == 1
  {
    var before, after := s[..k], s[k + 1..];
    assert s == before + [s[k]] + after;
    forall i | 0 <= i < |before| ensures before[i] != s[k] {
      assert before[i] == s[i];
    }
    forall i | 0 <= i < |after| ensures after[i] != s[k] {
      assert after[i] == s[k + 1 + i];
    }
    assert s[k] !in before && s[k] !in after;
  }

  /** Three one-for-one exchanges in a row exchange three values. */
  lemma ExchangeThree<T>(m0: multiset<T>, m1: multiset<T>, m2: multiset<T>, m3: multiset<T>,
                         c0: T, c1: T, c2: T, d0: T, d1: T, d2: T)
    requires m1 + multiset{c0} == m0 + multiset{d0}
    requires m2 + multiset{c1} == m1 + multiset{d1}
    requires m3 + multiset{c2} == m2 + multiset{d2}
    ensures m3 + multiset{c0, c1, c2} == m0 + multiset{d0, d1, d2}
  {
    forall x ensures (m3 + multiset{c0, c1, c2})[x] == (m0 + multiset{d0, d1, d2})[x] {
      ExchangeAt(m0, m1, m2, m3, c0, c1, c2, d0, d1, d2, x);
    }
  }

  lemma ExchangeAt<T>(m0: multiset<T>, m1: multiset<T>, m2: multiset<T>, m3: multiset<T>,
                      c0: T, c1: T, c2: T, d0: T, d1: T, d2: T, x: T)
    requires m1 + multiset{c0} == m0 + multiset{d0}
    requires m2 + multiset{c1} == m1 + multiset{d1}
    requires m3 + multiset{c2} == m2 + multiset{d2}
    ensures (m3 + multiset{c0, c1, c2})[x] == (m0 + multiset{d0, d1, d2})[x]
  {
    var e0, e1, e2 := multiset{c0}[x], multiset{c1}[x], multiset{c2}[x];
    var f0, f1, f2 := multiset{d0}[x], multiset{d1}[x], multiset{d2}[x];
    assert m1[x] + e0 == m0[x] + f0 by {
      assert (m1 + multiset{c0})[x] == (m0 + multiset{d0})[x];
    }
    assert m2[x] + e1 == m1[x] + f1 by {
      assert (m2 + multiset{c1})[x] == (m1 + multiset{d1})[x];
    }
    assert m3[x] + e2 == m2[x] + f2 by {
      assert (m3 + multiset{c2})[x] == (m2 + multiset{d2})[x];
    }
    assert multiset{c0, c1, c2}[x] == e0 + e1 + e2;
    assert multiset{d0, d1, d2}[x] == f0 + f1 + f2;
  }

  lemma MultisetOfThree<T>(s: seq<T>)
    requires |s| == 3
    ensures multiset(s) == multiset{s[0], s[1], s[2]}
  {
    assert s == [s[0], s[1], s[2]];
  }
}
