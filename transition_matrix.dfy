/** `build_transition_matrix` (app.py): for every chord of the pool, a row that
    weights each candidate successor uniformly. */
module TransitionMatrices {
  import opened Lists
  import opened Dicts
  import opened ChordTables

  /** One row: candidate next chord to weight, in insertion order. */
  type Row = Dict<Chord, real>

  type Matrix = map<Chord, Row>

  /** The comprehension `{ch: 1 / len(next) for ch in next}`.  Its body runs once
      per element, so for an empty `next` nothing is divided and the row is empty. */
  function UniformRow(next: seq<Chord>): (row: Row)
    ensures IsDict(row)
    ensures Keys(row) == Dedup(next)
    ensures forall i :: 0 <= i < |row| ==> |next| > 0 && row[i].1 == 1.0 / (|next| as real)
  {
    if next == [] then [] else FromKeys(next, 1.0 / (|next| as real))
  }

  /** The row `build_transition_matrix` stores for `c`: built from a copy of the
      list with the first `c` removed. */
  function RowOf(chords: seq<Chord>, c: Chord): Row
    requires c in chords
  {
    UniformRow(RemoveFirst(chords, c))
  }

  /** The matrix the loop leaves behind: one row per distinct chord.  Every
      occurrence of a repeated chord produces the same row, so which one writes
      last does not matter. */
  function TransitionMatrix(chords: seq<Chord>): Matrix
  {
    map c | c in chords :: RowOf(chords, c)
  }

  /** The loop of `build_transition_matrix`; the list itself is never changed,
      only a copy of it loses an element. */
  method BuildTransitionMatrix(chordList: seq<Chord>) returns (matrix: Matrix)
    ensures matrix == TransitionMatrix(chordList)
  {
    matrix := map[];
    var i := 0;
    while i < |chordList|
      invariant 0 <= i <= |chordList|
      invariant IsPartialMatrix(matrix, chordList, i)
    {
      var chord := chordList[i];
      var nextChords := RemoveFirst(chordList, chord);
      PartialMatrixStep(matrix, chordList, i);
      matrix := matrix[chord := UniformRow(nextChords)];
      i := i + 1;
    }
    PartialMatrixDone(matrix, chordList);
  }

  /** What the loop has built after its first `i` iterations. */
  ghost predicate IsPartialMatrix(m: Matrix, chords: seq<Chord>, i: nat)
    requires i <= |chords|
  {
    m.Keys == Elements(chords[..i]) &&
    forall c :: c in m ==> c in chords && m[c] == RowOf(chords, c)
  }

  /** One iteration adds the row of the next chord. */
  lemma PartialMatrixStep(m: Matrix, chords: seq<Chord>, i: nat)
    requires i < |chords| && IsPartialMatrix(m, chords, i)
    ensures IsPartialMatrix(m[chords[i] := RowOf(chords, chords[i])], chords, i + 1)
  {
    var c := chords[i];
    var m' := m[c := RowOf(chords, c)];
    ElementsOfPrefix(chords, i);
    assert m'.Keys == m.Keys + {c};
    forall d | d in m' ensures d in chords && m'[d] == RowOf(chords, d) {
      if d != c {
        assert m'[d] == m[d];
      }
    }
  }

  /** After the last iteration the loop has built the whole matrix. */
  lemma PartialMatrixDone(m: Matrix, chords: seq<Chord>)
    requires IsPartialMatrix(m, chords, |chords|)
    ensures m == TransitionMatrix(chords)
  {
    assert chords[..|chords|] == chords;
  }

  /** The keys of the matrix are exactly the distinct chords of the list. */
  lemma MatrixKeys(chords: seq<Chord>)
    ensures TransitionMatrix(chords).Keys == Elements(chords)
  {
  }

  /** The entry of `c` is its row: the distinct chords left once the first `c`
      is removed, in the order they first occur. */
  lemma MatrixRows(chords: seq<Chord>, c: Chord)
    requires c in chords
    ensures c in TransitionMatrix(chords) && TransitionMatrix(chords)[c] == RowOf(chords, c)
    ensures Keys(TransitionMatrix(chords)[c]) == Dedup(RemoveFirst(chords, c))
  {
  }

  /** Which chords can follow `c`: every other chord of the list, and `c` itself
      only when the list holds it more than once. */
  lemma RowSupport(chords: seq<Chord>, c: Chord, d: Chord)
    requires c in chords
    ensures d in Keys(RowOf(chords, c)) <==> d in chords && (d != c || multiset(chords)[c] >= 2)
  {
    RemoveFirstMembers(chords, c, d);
  }

  /** Every weight of a row is `1 / (len(chords) - 1)`, hence positive, and a row
      is empty exactly when the list has a single element. */
  lemma RowWeights(chords: seq<Chord>, c: Chord)
    requires c in chords
    ensures forall i :: 0 <= i < |RowOf(chords, c)| ==>
      |chords| >= 2 && RowOf(chords, c)[i].1 == 1.0 / ((|chords| - 1) as real)
    ensures forall i :: 0 <= i < |RowOf(chords, c)| ==> RowOf(chords, c)[i].1 > 0.0
    ensures RowOf(chords, c) == [] <==> |chords| == 1
  {
    var next := RemoveFirst(chords, c);
    var row := UniformRow(next);
    assert RowOf(chords, c) == row;
    if |chords| >= 2 {
      var w := 1.0 / (|next| as real);
      assert (|next| as real) == ((|chords| - 1) as real);
      PositiveShare(|next|);
      assert forall i :: 0 <= i < |row| ==> row[i].1 == w;
      assert next[0] in Dedup(next);
      assert |Keys(row)| > 0;
    }
  }

  /** Without duplicates the row of `c` lists the other chords in their original
      order, never `c` itself, and its weights add up to 1. */
  lemma RowOfDistinct(chords: seq<Chord>, c: Chord)
    requires c in chords && NoDuplicates(chords)
    ensures Keys(RowOf(chords, c)) == RemoveFirst(chords, c)
    ensures c !in Keys(RowOf(chords, c))
    ensures forall d :: d in chords && d != c ==> d in Keys(RowOf(chords, c))
    ensures |chords| >= 2 ==> Total(RowOf(chords, c)) == 1.0
  {
    var next := RemoveFirst(chords, c);
    RemoveFirstOfDistinct(chords, c);
    DedupLength(next);
    if |chords| >= 2 {
      RowTotal(chords, c);
    }
  }

  /** No chord of the list can follow itself exactly when the list has no
      repeated name. */
  lemma SelfTransitionIff(chords: seq<Chord>)
    ensures (forall c :: c in chords ==> c !in Keys(RowOf(chords, c))) <==> NoDuplicates(chords)
  {
    if NoDuplicates(chords) {
      forall c | c in chords ensures c !in Keys(RowOf(chords, c)) {
        RowOfDistinct(chords, c);
      }
    } else {
      var i, j :| 0 <= i < j < |chords| && chords[i] == chords[j];
      var c := chords[j];
      assert multiset(chords)[c] >= 2 by {
        assert chords == chords[..j] + [c] + chords[j + 1..];
        assert chords[..j][i] == c;
        assert multiset(chords[..j])[c] >= 1;
      }
      RowSupport(chords, c, c);
    }
  }

  /** The weights of a row add up to at most 1, and to exactly 1 only when the
      copy the row was built from has no repeated chord: the comprehension keeps
      one entry per repeated name but still divides by the full length. */
  lemma RowTotal(chords: seq<Chord>, c: Chord)
    requires c in chords && |chords| >= 2
    ensures Total(RowOf(chords, c)) <= 1.0
    ensures Total(RowOf(chords, c)) == 1.0 <==> NoDuplicates(RemoveFirst(chords, c))
  {
    var next := RemoveFirst(chords, c);
    var row := RowOf(chords, c);
    assert |row| == |Keys(row)| == |Dedup(next)|;
    DedupLength(next);
    TotalOfShares(row, |next|);
  }
}
