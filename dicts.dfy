/** Python dictionaries as the model uses them: a sequence of key/value entries in
    insertion order, each key at most once. */
module Dicts {
  import opened Lists

  type Dict<K, V> = seq<(K, V)>

  /** The keys, in insertion order (`list(d.keys())`). */
  function Keys<K, V>(d: Dict<K, V>): seq<K>
  {
    seq(|d|, i requires 0 <= i < |d| => d[i].0)
  }

  /** What every dictionary satisfies: no key twice. */
  predicate IsDict<K(==), V>(d: Dict<K, V>)
  {
    NoDuplicates(Keys(d))
  }

  /** `d[k] = v`: a key already present keeps its place and takes the new value,
      a new key goes last. */
  function Put<K(==), V>(d: Dict<K, V>, k: K, v: V): (r: Dict<K, V>)
    requires IsDict(d)
    ensures IsDict(r)
    ensures Keys(r) == if k in Keys(d) then Keys(d) else Keys(d) + [k]
    ensures forall i :: |d| <= i < |r| ==> r[i] == (k, v)
    ensures forall i :: 0 <= i < |r| ==> r[i].1 == if r[i].0 == k then v else d[i].1
  {
    if k in Keys(d) then
      var i := FirstIndex(Keys(d), k);
      assert Keys(d[i := (k, v)]) == Keys(d);
      forall j | 0 <= j < |d| && j != i ensures d[j].0 != k {
        assert Keys(d)[j] == d[j].0 && Keys(d)[i] == k;
      }
      d[i := (k, v)]
    else
      var r := d + [(k, v)];
      assert Keys(r) == Keys(d) + [k];
      forall j | 0 <= j < |d| ensures r[j] == d[j] && d[j].0 != k {
        assert Keys(d)[j] == d[j].0;
      }
      r
  }

  /** The comprehension `{x: v for x in xs}`: the keys are the distinct elements of
      `xs` in the order they first occur, and each maps to `v`. */
  function FromKeys<K(==), V>(xs: seq<K>, v: V): (d: Dict<K, V>)
    ensures IsDict(d)
    ensures Keys(d) == Dedup(xs)
    ensures forall i :: 0 <= i < |d| ==> d[i].1 == v
  {
    if xs == [] then [] else Put(FromKeys(xs[..|xs| - 1], v), xs[|xs| - 1], v)
  }

  /** The sum of the values (`sum(d.values())`). */
  function Total<K>(d: Dict<K, real>): real
  {
    if d == [] then 0.0 else d[0].1 + Total(d[1..])
  }

  /** When every value is `w`, the values add up to `|d| * w`. */
  lemma {:induction false} TotalOfUniform<K>(d: Dict<K, real>, w: real)
    requires forall i :: 0 <= i < |d| ==> d[i].1 == w
    ensures Total(d) == |d| as real * w
  {
    if d != [] {
      TotalOfUniform(d[1..], w);
    }
  }

  /** A share `1/n` of a positive `n` is positive. */
  lemma PositiveShare(n: nat)
    requires n > 0
    ensures 1.0 / (n as real) > 0.0
  {
  }

  /** Entries that each weigh `1/n` add up to at most 1 when there are at most `n`
      of them, and to exactly 1 only when there are `n`. */
  lemma TotalOfShares<K>(d: Dict<K, real>, n: nat)
    requires 0 < n && |d| <= n
    requires forall i :: 0 <= i < |d| ==> d[i].1 == 1.0 / (n as real)
    ensures Total(d) <= 1.0
    ensures Total(d) == 1.0 <==> |d| == n
  {
    TotalOfUniform(d, 1.0 / (n as real));
    SharesOf(|d|, n);
  }

  /** `m` shares of `1/n` make at most a whole, and a whole only when `m == n`. */
  lemma SharesOf(m: nat, n: nat)
    requires 0 < n && m <= n
    ensures m as real * (1.0 / (n as real)) <= 1.0
    ensures m as real * (1.0 / (n as real)) == 1.0 <==> m == n
  {
    var x, k := m as real, n as real;
    var w := 1.0 / k;
    assert k * w == 1.0;
    assert x * w == x / k;
    if m < n {
      assert x / k < 1.0;
    }
  }
}
