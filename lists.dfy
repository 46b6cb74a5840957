/** Facts about Python lists, modelled as sequences: duplicates, `list.remove`,
    and the key order a dictionary built from a list ends up with. */
module Lists {

  /** No element occurs twice. */
  predicate NoDuplicates<T(==)>(s: seq<T>)
  {
    forall i, j :: 0 <= i < j < |s| ==> s[i] != s[j]
  }

  /** The elements of a sequence, as a set. */
  function Elements<T>(s: seq<T>): set<T>
  {
    set x | x in s
  }

  /** Growing a prefix by one position adds that position's element. */
  lemma ElementsOfPrefix<T>(s: seq<T>, i: nat)
    requires i < |s|
    ensures Elements(s[..i + 1]) == Elements(s[..i]) + {s[i]}
  {
    assert s[..i + 1] == s[..i] + [s[i]];
  }

  /** The position of the first occurrence of `x`. */
  function FirstIndex<T(==)>(s: seq<T>, x: T): (i: nat)
    requires x in s
    ensures i < |s| && s[i] == x
    ensures x !in s[..i]
  {
    if s[0] == x then 0
    else
      assert s[..1 + FirstIndex(s[1..], x)] == [s[0]] + s[1..][..FirstIndex(s[1..], x)];
      1 + FirstIndex(s[1..], x)
  }

  /** Python's `list.remove(x)` applied to a copy: only the first occurrence goes. */
  function RemoveFirst<T(==)>(s: seq<T>, x: T): (r: seq<T>)
    requires x in s
    ensures |r| == |s| - 1
  {
    if s[0] == x then s[1..] else [s[0]] + RemoveFirst(s[1..], x)
  }

  /** The removal takes away exactly one `x` and nothing else. */
  lemma {:induction false} RemoveFirstMultiset<T>(s: seq<T>, x: T)
    requires x in s
    ensures multiset(RemoveFirst(s, x)) == multiset(s) - multiset{x}
  {
    assert s == [s[0]] + s[1..];
    if s[0] != x {
      RemoveFirstMultiset(s[1..], x);
    }
  }

  /** The removal cuts the sequence at the first occurrence of `x`. */
  lemma {:induction false} RemoveFirstAt<T>(s: seq<T>, x: T)
    requires x in s
    ensures RemoveFirst(s, x) == s[..FirstIndex(s, x)] + s[FirstIndex(s, x) + 1..]
  {
    if s[0] != x {
      var t := s[1..];
      assert x in t;
      var k := FirstIndex(t, x);
      assert FirstIndex(s, x) == k + 1;
      calc {
        RemoveFirst(s, x);
        [s[0]] + RemoveFirst(t, x);
        { RemoveFirstAt(t, x); }
        [s[0]] + (t[..k] + t[k + 1..]);
        { assert [s[0]] + t[..k] == s[..k + 1]; assert t[k + 1..] == s[k + 2..]; }
        s[..k + 1] + s[k + 2..];
      }
    } else {
      assert FirstIndex(s, x) == 0;
    }
  }

  /** What is left after the removal: every other element, and `x` only when it
      occurred more than once. */
  lemma RemoveFirstMembers<T>(s: seq<T>, x: T, y: T)
    requires x in s
    ensures y in RemoveFirst(s, x) <==> y in s && (y != x || multiset(s)[x] >= 2)
  {
    RemoveFirstMultiset(s, x);
    assert y in RemoveFirst(s, x) <==> multiset(RemoveFirst(s, x))[y] > 0;
  }

  /** With no duplicates, removing `x` leaves every other element and no `x`. */
  lemma RemoveFirstOfDistinct<T>(s: seq<T>, x: T)
    requires x in s && NoDuplicates(s)
    ensures x !in RemoveFirst(s, x)
    ensures NoDuplicates(RemoveFirst(s, x))
    ensures forall y :: y in s && y != x ==> y in RemoveFirst(s, x)
  {
    var i := FirstIndex(s, x);
    var pre, post := s[..i], s[i + 1..];
    assert s == (pre + [x]) + post;
    NoDuplicatesConcat(pre + [x], post);
    NoDuplicatesConcat(pre, [x]);
    NoDuplicatesConcat(pre, post);
    RemoveFirstAt(s, x);
    assert x in Elements(pre + [x]);
  }

  /** The distinct elements of `s`, in the order of their first occurrence.  This is
      the key order of a Python dictionary filled from `s` one key at a time. */
  function Dedup<T(==)>(s: seq<T>): (r: seq<T>)
    ensures NoDuplicates(r)
    ensures forall x :: x in r ==> x in s
    ensures forall x :: x in s ==> x in r
    ensures |r| <= |s|
  {
    if s == [] then []
    else
      var p := Dedup(s[..|s| - 1]);
      assert s == s[..|s| - 1] + [s[|s| - 1]];
      if s[|s| - 1] in p then p else p + [s[|s| - 1]]
  }

  /** Appending an element leaves the first occurrence of an earlier element where
      it was. */
  lemma {:induction false} FirstIndexExtend<T>(init: seq<T>, last: T, x: T)
    requires x in init
    ensures FirstIndex(init + [last], x) == FirstIndex(init, x)
  {
    if init[0] != x {
      assert (init + [last])[1..] == init[1..] + [last];
      FirstIndexExtend(init[1..], last, x);
    }
  }

  /** Dedup keeps the elements in the order of their first occurrence in `s`. */
  lemma {:induction false} DedupOrder<T>(s: seq<T>, i: nat, j: nat)
    requires i < j < |Dedup(s)|
    ensures FirstIndex(s, Dedup(s)[i]) < FirstIndex(s, Dedup(s)[j])
  {
    var init, last := s[..|s| - 1], s[|s| - 1];
    assert s == init + [last];
    var p := Dedup(init);
    FirstIndexExtend(init, last, Dedup(s)[i]);
    if j < |p| {
      assert Dedup(s)[i] == p[i] && Dedup(s)[j] == p[j];
      FirstIndexExtend(init, last, p[j]);
      DedupOrder(init, i, j);
    } else {
      assert last !in init && Dedup(s)[j] == last;
      assert forall k :: 0 <= k < |init| ==> s[k] != last;
    }
  }

  /** Dedup changes nothing exactly when there is nothing to drop, and otherwise
      strictly shortens the sequence. */
  lemma {:induction false} DedupLength<T>(s: seq<T>)
    ensures NoDuplicates(s) ==> Dedup(s) == s
    ensures !NoDuplicates(s) ==> |Dedup(s)| < |s|
  {
    if s != [] {
      var init, last := s[..|s| - 1], s[|s| - 1];
      assert s == init + [last];
      DedupLength(init);
      if NoDuplicates(s) {
        assert NoDuplicates(init) by {
          forall i, j | 0 <= i < j < |init| ensures init[i] != init[j] {
            assert init[i] == s[i] && init[j] == s[j];
          }
        }
        assert last !in init by {
          forall i | 0 <= i < |init| ensures init[i] != last {
            assert init[i] == s[i];
          }
        }
      } else if NoDuplicates(init) {
        assert last in init by {
          var i, j :| 0 <= i < j < |s| && s[i] == s[j];
          assert j == |s| - 1;
          assert init[i] == last;
        }
      }
    }
  }

  /** A concatenation has no duplicates exactly when its parts have none and share
      no element. */
  lemma {:induction false} NoDuplicatesConcat<T>(a: seq<T>, b: seq<T>)
    ensures NoDuplicates(a + b) <==> NoDuplicates(a) && NoDuplicates(b) && Elements(a) !! Elements(b)
  {
    var ab := a + b;
    if NoDuplicates(ab) {
      forall i, j | 0 <= i < j < |a| ensures a[i] != a[j] {
        assert ab[i] == a[i] && ab[j] == a[j];
      }
      forall i, j | 0 <= i < j < |b| ensures b[i] != b[j] {
        assert ab[|a| + i] == b[i] && ab[|a| + j] == b[j];
      }
      forall i, j | 0 <= i < |a| && 0 <= j < |b| ensures a[i] != b[j] {
        assert ab[i] == a[i] && ab[|a| + j] == b[j];
      }
    }
    if NoDuplicates(a) && NoDuplicates(b) && Elements(a) !! Elements(b) {
      forall i, j | 0 <= i < j < |ab| ensures ab[i] != ab[j] {
        if j < |a| {
          assert ab[i] == a[i] && ab[j] == a[j];
        } else if i >= |a| {
          assert ab[i] == b[i - |a|] && ab[j] == b[j - |a|];
        } else {
          assert ab[i] == a[i] && ab[j] == b[j - |a|];
          assert a[i] in Elements(a) && b[j - |a|] in Elements(b);
        }
      }
    }
  }

  /** The concatenation of `f(x)` for each `x` in turn: a list that is extended by
      `f(x)` once per element. */
  function FlatMap<A, T>(xs: seq<A>, f: A -> seq<T>): seq<T>
  {
    if xs == [] then [] else FlatMap(xs[..|xs| - 1], f) + f(xs[|xs| - 1])
  }

  /** Flattening distributes over concatenation. */
  lemma {:induction false} FlatMapAppend<A, T>(a: seq<A>, b: seq<A>, f: A -> seq<T>)
    ensures FlatMap(a + b, f) == FlatMap(a, f) + FlatMap(b, f)
  {
    if b == [] {
      assert a + b == a;
    } else {
      var ab, init, last := a + b, b[..|b| - 1], b[|b| - 1];
      assert ab[..|ab| - 1] == a + init && ab[|ab| - 1] == last;
      FlatMapAppend(a, init, f);
    }
  }

  /** An element of the flattening comes from the part of some `x`. */
  lemma {:induction false} FlatMapMembers<A, T>(xs: seq<A>, f: A -> seq<T>, y: T)
    ensures y in FlatMap(xs, f) <==> exists x :: x in xs && y in f(x)
  {
    if xs != [] {
      var init, last := xs[..|xs| - 1], xs[|xs| - 1];
      FlatMapMembers(init, f, y);
      assert xs == init + [last];
    }
  }

  /** When every part has between `lo` and `hi` elements, so does every element of
      `xs` contribute. */
  lemma {:induction false} FlatMapLength<A, T>(xs: seq<A>, f: A -> seq<T>, lo: nat, hi: nat)
    requires forall x :: lo <= |f(x)| <= hi
    ensures lo * |xs| <= |FlatMap(xs, f)| <= hi * |xs|
  {
    if xs != [] {
      var init := xs[..|xs| - 1];
      FlatMapLength(init, f, lo, hi);
      assert lo * |xs| == lo * |init| + lo && hi * |xs| == hi * |init| + hi;
    }
  }

  /** With non-empty, duplicate-free and pairwise disjoint parts, the flattening
      repeats an element exactly when `xs` does. */
  lemma {:induction false} FlatMapDistinct<A, T>(xs: seq<A>, f: A -> seq<T>)
    requires forall x :: f(x) != [] && NoDuplicates(f(x))
    requires forall x, y :: x != y ==> Elements(f(x)) !! Elements(f(y))
    ensures NoDuplicates(FlatMap(xs, f)) <==> NoDuplicates(xs)
  {
    if xs != [] {
      var init, last := xs[..|xs| - 1], xs[|xs| - 1];
      var flat, part := FlatMap(init, f), f(last);
      assert xs == init + [last];
      FlatMapDistinct(init, f);
      NoDuplicatesConcat(flat, part);
      NoDuplicatesConcat(init, [last]);
      if last in init {
        FlatMapMembers(init, f, part[0]);
        assert part[0] in Elements(flat) && part[0] in Elements(part);
      } else {
        forall y | y in Elements(flat) ensures y !in Elements(part) {
          FlatMapMembers(init, f, y);
          var x :| x in init && y in f(x);
          assert y in Elements(f(x));
        }
        assert Elements([last]) == {last};
      }
    }
  }
}
