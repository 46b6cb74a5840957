/** `generate_chord_progression` (app.py): build the chord pool from the
    training type, build its transition matrix, then walk the matrix. */
module Generator {
  import opened Lists
  import opened Dicts
  import opened ChordTables
  import opened TransitionMatrices

  /** A Python argument that defaults to `None`. */
  datatype Option<T> = None | Some(value: T)

  /** The failures of a call.  `NoFamilySelected` and `NoValidChords` are the two
      `ValueError`s the function raises itself; `EmptyPopulation` is the
      `IndexError` that `random.choices` raises on an empty row. */
  datatype Error = NoFamilySelected | NoValidChords | EmptyPopulation

  datatype Result<T> = Ok(value: T) | Err(error: Error)

  const DifficultyTraining: string := "difficulty"
  const FamilyTraining: string := "chord family"
  const Beginner: string := "Beginner"
  const Intermediate: string := "Intermediate"
  const Expert: string := "Expert"

  predicate IsTier(level: Option<string>)
  {
    level == Some(Beginner) || level == Some(Intermediate) || level == Some(Expert)
  }

  /** The pool of difficulty mode; any other level leaves the list empty. */
  function DifficultyPool(level: Option<string>, key: Key): seq<Chord>
  {
    if level == Some(Beginner) then PowerChords(key)
    else if level == Some(Intermediate) then PowerChords(key) + SeventhChordsMajor(key)
    else if level == Some(Expert) then SeventhChordsMajor(key) + ExtendedChords(key) + DimAugChords(key)
    else []
  }

  /** `chord_family_mapping[...][key]` as a function of the family. */
  function TableOf(key: Key): Family -> seq<Chord>
  {
    f => FamilyTable(f, key)
  }

  /** The pool of family mode: each selected family's chords for the one key,
      appended in the order the families are given. */
  function FamilyPool(families: seq<Family>, key: Key): (pool: seq<Chord>)
    ensures 3 * |families| <= |pool| <= 7 * |families|
  {
    FlatMapLength(families, TableOf(key), 3, 7);
    FlatMap(families, TableOf(key))
  }

  /** The pool a request resolves to, or the `ValueError` it raises. */
  function ChordPool(key: Key, trainingType: string, difficultyLevel: Option<string>,
                     selectedFamilies: Option<seq<Family>>): Result<seq<Chord>>
  {
    if trainingType == FamilyTraining && (selectedFamilies == None || selectedFamilies.value == []) then
      Err(NoFamilySelected)
    else
      var pool :=
        if trainingType == DifficultyTraining then DifficultyPool(difficultyLevel, key)
        else if trainingType == FamilyTraining then FamilyPool(selectedFamilies.value, key)
        else [];
      if pool == [] then Err(NoValidChords) else Ok(pool)
  }

  /** The first half of `generate_chord_progression`: the pool of the request. */
  method BuildChordPool(key: Key, trainingType: string, difficultyLevel: Option<string>,
                        selectedFamilies: Option<seq<Family>>) returns (r: Result<seq<Chord>>)
    ensures r == ChordPool(key, trainingType, difficultyLevel, selectedFamilies)
  {
    var chordList: seq<Chord> := [];
    if trainingType == DifficultyTraining {
      chordList := DifficultyPool(difficultyLevel, key);
    } else if trainingType == FamilyTraining {
      if selectedFamilies == None || selectedFamilies.value == [] {
        return Err(NoFamilySelected);
      }
      chordList := ExtendFamilies(selectedFamilies.value, key);
    }
    if chordList == [] {
      return Err(NoValidChords);
    }
    return Ok(chordList);
  }

  /** The family-mode loop: extend the list with each family's chords in turn. */
  method ExtendFamilies(families: seq<Family>, key: Key) returns (chordList: seq<Chord>)
    ensures chordList == FamilyPool(families, key)
  {
    chordList := [];
    var i := 0;
    while i < |families|
      invariant 0 <= i <= |families|
      invariant chordList == FamilyPool(families[..i], key)
    {
      FamilyPoolStep(families, i, key);
      chordList := chordList + FamilyTable(families[i], key);
      i := i + 1;
    }
    assert families[..i] == families;
  }

  /** One iteration of the family loop extends the pool by one table. */
  lemma FamilyPoolStep(families: seq<Family>, i: nat, key: Key)
    requires i < |families|
    ensures FamilyPool(families[..i + 1], key) == FamilyPool(families[..i], key) + FamilyTable(families[i], key)
  {
    assert families[..i + 1][..i] == families[..i];
  }

  /** A walk over the matrix of the pool: chords of the pool, each drawn from its
      predecessor's row. */
  ghost predicate IsWalk(p: seq<Chord>, pool: seq<Chord>)
  {
    (forall i :: 0 <= i < |p| ==> p[i] in pool) &&
    (forall i :: 0 < i < |p| ==> p[i] in Keys(RowOf(pool, p[i - 1])))
  }

  /** A progression of the requested length over the pool: one initial chord and
      one more per remaining step. */
  ghost predicate IsProgression(p: seq<Chord>, pool: seq<Chord>, numChords: int)
  {
    |p| == 1 + (if numChords - 1 > 0 then numChords - 1 else 0) && IsWalk(p, pool)
  }

  /** One step of the walk: a key of the last chord's row may follow it. */
  lemma WalkStep(p: seq<Chord>, pool: seq<Chord>, next: Chord)
    requires p != [] && IsWalk(p, pool)
    requires next in Keys(RowOf(pool, p[|p| - 1]))
    ensures IsWalk(p + [next], pool)
  {
    RowSupport(pool, p[|p| - 1], next);
  }

  /** The progression loop.  The random draws are left open: the first chord is
      any element of the pool and each next one is any key of the current row
      that carries a positive weight, which is what `random.choices` can return. */
  method WalkProgression(pool: seq<Chord>, matrix: Matrix, numChords: int) returns (r: Result<seq<Chord>>)
    requires pool != [] && matrix == TransitionMatrix(pool)
    ensures r.Err? <==> |pool| == 1 && numChords >= 2
    ensures r.Err? ==> r.error == EmptyPopulation
    ensures r.Ok? ==> IsProgression(r.value, pool, numChords)
  {
    assert pool[0] in pool;
    var first :| first in pool;
    var progression := [first];
    var step := 0;
    while step < numChords - 1
      invariant 0 <= step && (step == 0 || step <= numChords - 1)
      invariant |progression| == step + 1
      invariant IsWalk(progression, pool)
      invariant |pool| == 1 ==> step == 0
    {
      var current := progression[|progression| - 1];
      var row := matrix[current];
      assert row == RowOf(pool, current);
      RowWeights(pool, current);
      if row == [] {
        return Err(EmptyPopulation);
      }
      var j :| 0 <= j < |row| && row[j].1 > 0.0;
      var next := row[j].0;
      assert next == Keys(row)[j];
      WalkStep(progression, pool, next);
      progression := progression + [next];
      step := step + 1;
    }
    return Ok(progression);
  }

  /** `generate_chord_progression`: every failure comes from the pool, and every
      valid request yields a progression over its pool. */
  method GenerateChordProgression(key: Key, numChords: int, trainingType: string,
                                  difficultyLevel: Option<string>,
                                  selectedFamilies: Option<seq<Family>>) returns (r: Result<seq<Chord>>)
    ensures ChordPool(key, trainingType, difficultyLevel, selectedFamilies).Err? ==>
      r == Err(ChordPool(key, trainingType, difficultyLevel, selectedFamilies).error)
    ensures ChordPool(key, trainingType, difficultyLevel, selectedFamilies).Ok? ==>
      r.Ok? && IsProgression(r.value, ChordPool(key, trainingType, difficultyLevel, selectedFamilies).value, numChords)
  {
    var pool := BuildChordPool(key, trainingType, difficultyLevel, selectedFamilies);
    if pool.Err? {
      return Err(pool.error);
    }
    var chordList := pool.value;
    PoolSize(key, trainingType, difficultyLevel, selectedFamilies);
    var transitionMatrix := BuildTransitionMatrix(chordList);
    r := WalkProgression(chordList, transitionMatrix, numChords);
  }

  // ---------------------------------------------------------------------------
  // Properties of the pool

  /** Difficulty mode: the three tiers are fixed concatenations of the tables,
      of 7, 14 and 14 chords for every key. */
  lemma DifficultyPools(key: Key, selectedFamilies: Option<seq<Family>>)
    ensures ChordPool(key, DifficultyTraining, Some(Beginner), selectedFamilies) == Ok(PowerChords(key))
    ensures ChordPool(key, DifficultyTraining, Some(Intermediate), selectedFamilies)
      == Ok(PowerChords(key) + SeventhChordsMajor(key))
    ensures ChordPool(key, DifficultyTraining, Some(Expert), selectedFamilies)
      == Ok(SeventhChordsMajor(key) + ExtendedChords(key) + DimAugChords(key))
    ensures |DifficultyPool(Some(Beginner), key)| == 7
    ensures |DifficultyPool(Some(Intermediate), key)| == 14
    ensures |DifficultyPool(Some(Expert), key)| == 14
  {
  }

  /** A single family's pool is its table. */
  lemma FamilyPoolSingle(f: Family, key: Key)
    ensures FamilyPool([f], key) == FamilyTable(f, key)
  {
    var t := TableOf(key);
    assert [f][..0] == [];
    assert FlatMap([f], t) == FlatMap([], t) + t(f);
  }

  /** Each tier is the pool of a fixed family selection. */
  lemma TiersArePresetFamilies(key: Key)
    ensures DifficultyPool(Some(Beginner), key) == FamilyPool([PowerFamily], key)
    ensures DifficultyPool(Some(Intermediate), key) == FamilyPool([PowerFamily, SeventhFamily], key)
    ensures DifficultyPool(Some(Expert), key) == FamilyPool([SeventhFamily, ExtendedFamily, DimAugFamily], key)
  {
    assert DifficultyPool(Some(Beginner), key) == PowerChords(key);
    assert DifficultyPool(Some(Intermediate), key) == PowerChords(key) + SeventhChordsMajor(key);
    assert DifficultyPool(Some(Expert), key) == SeventhChordsMajor(key) + ExtendedChords(key) + DimAugChords(key);
    FamilyPoolSingle(PowerFamily, key);
    IntermediateTier(key);
    ExpertTier(key);
  }

  lemma IntermediateTier(key: Key)
    ensures FamilyPool([PowerFamily, SeventhFamily], key) == PowerChords(key) + SeventhChordsMajor(key)
  {
    FamilyPoolSingle(PowerFamily, key);
    FamilyPoolSingle(SeventhFamily, key);
    FamilyPoolAppend([PowerFamily], [SeventhFamily], key);
    assert [PowerFamily] + [SeventhFamily] == [PowerFamily, SeventhFamily];
  }

  lemma ExpertTier(key: Key)
    ensures FamilyPool([SeventhFamily, ExtendedFamily, DimAugFamily], key)
      == SeventhChordsMajor(key) + ExtendedChords(key) + DimAugChords(key)
  {
    var se := [SeventhFamily, ExtendedFamily];
    FamilyPoolSingle(SeventhFamily, key);
    FamilyPoolSingle(ExtendedFamily, key);
    FamilyPoolSingle(DimAugFamily, key);
    FamilyPoolAppend([SeventhFamily], [ExtendedFamily], key);
    FamilyPoolAppend(se, [DimAugFamily], key);
    assert [SeventhFamily] + [ExtendedFamily] == se;
    assert se + [DimAugFamily] == [SeventhFamily, ExtendedFamily, DimAugFamily];
  }

  /** Family mode with no family (`None` or an empty list) fails with the first
      `ValueError`, whatever the key; it is the only request that does. */
  lemma NoFamilySelectedIff(key: Key, trainingType: string, difficultyLevel: Option<string>,
                            selectedFamilies: Option<seq<Family>>)
    ensures ChordPool(key, trainingType, difficultyLevel, selectedFamilies) == Err(NoFamilySelected)
      <==> trainingType == FamilyTraining && (selectedFamilies == None || selectedFamilies.value == [])
  {
  }

  /** Family mode with at least one family yields the families' tables appended in
      the order given. */
  lemma FamilyModePool(key: Key, difficultyLevel: Option<string>, families: seq<Family>)
    requires families != []
    ensures ChordPool(key, FamilyTraining, difficultyLevel, Some(families)) == Ok(FamilyPool(families, key))
  {
  }

  /** The second `ValueError` is raised exactly for an unrecognised training type
      and, in difficulty mode, for a level that is not one of the three tiers. */
  lemma NoValidChordsIff(key: Key, trainingType: string, difficultyLevel: Option<string>,
                         selectedFamilies: Option<seq<Family>>)
    ensures ChordPool(key, trainingType, difficultyLevel, selectedFamilies) == Err(NoValidChords)
      <==> ((trainingType != DifficultyTraining && trainingType != FamilyTraining)
            || (trainingType == DifficultyTraining && !IsTier(difficultyLevel)))
  {
    if trainingType == DifficultyTraining && IsTier(difficultyLevel) {
      DifficultyPools(key, selectedFamilies);
    }
  }

  /** A pool that comes out of the tables has at least three chords, so every row
      of its matrix is non-empty. */
  lemma PoolSize(key: Key, trainingType: string, difficultyLevel: Option<string>,
                 selectedFamilies: Option<seq<Family>>)
    ensures ChordPool(key, trainingType, difficultyLevel, selectedFamilies).Ok? ==>
      |ChordPool(key, trainingType, difficultyLevel, selectedFamilies).value| >= 3
  {
    DifficultyPools(key, selectedFamilies);
  }

  /** Appending families appends their pools. */
  lemma FamilyPoolAppend(a: seq<Family>, b: seq<Family>, key: Key)
    ensures FamilyPool(a + b, key) == FamilyPool(a, key) + FamilyPool(b, key)
  {
    FlatMapAppend(a, b, TableOf(key));
  }

  /** A chord is in the family pool exactly when one of the selected families
      lists it for the key. */
  lemma FamilyPoolMembers(families: seq<Family>, key: Key, c: Chord)
    ensures c in FamilyPool(families, key) <==> exists f :: f in families && c in FamilyTable(f, key)
  {
    FlatMapMembers(families, TableOf(key), c);
  }

  /** The family pool repeats a chord exactly when a family is selected twice:
      distinct families never share a chord name for the same key. */
  lemma FamilyPoolDistinct(families: seq<Family>, key: Key)
    ensures NoDuplicates(FamilyPool(families, key)) <==> NoDuplicates(families)
  {
    var t := TableOf(key);
    forall f ensures t(f) != [] && NoDuplicates(t(f)) {
      assert |t(f)| >= 3;
    }
    forall f, g | f != g ensures Elements(t(f)) !! Elements(t(g)) {
      FamilyTablesDisjoint(f, g, key);
    }
    FlatMapDistinct(families, t);
  }

  /** No tier repeats a chord. */
  lemma DifficultyPoolDistinct(level: Option<string>, key: Key)
    ensures NoDuplicates(DifficultyPool(level, key))
  {
    if level == Some(Intermediate) {
      PowerSeventhDisjoint(key);
      NoDuplicatesConcat(PowerChords(key), SeventhChordsMajor(key));
    } else if level == Some(Expert) {
      var s, e, d := SeventhChordsMajor(key), ExtendedChords(key), DimAugChords(key);
      SeventhExtendedDisjoint(key);
      SeventhDimAugDisjoint(key);
      ExtendedDimAugDisjoint(key);
      NoDuplicatesConcat(s, e);
      assert Elements(s + e) == Elements(s) + Elements(e);
      NoDuplicatesConcat(s + e, d);
    }
  }

  /** Every difficulty pool, and every family pool whose families are all
      different, holds no chord twice. */
  lemma PoolDistinct(key: Key, trainingType: string, difficultyLevel: Option<string>,
                     selectedFamilies: Option<seq<Family>>)
    requires trainingType == FamilyTraining && selectedFamilies.Some? ==> NoDuplicates(selectedFamilies.value)
    ensures ChordPool(key, trainingType, difficultyLevel, selectedFamilies).Ok? ==>
      NoDuplicates(ChordPool(key, trainingType, difficultyLevel, selectedFamilies).value)
  {
    if trainingType == DifficultyTraining {
      DifficultyPoolDistinct(difficultyLevel, key);
    } else if trainingType == FamilyTraining && selectedFamilies.Some? {
      FamilyPoolDistinct(selectedFamilies.value, key);
    }
  }

  // ---------------------------------------------------------------------------
  // Properties of the progression

  /** Over a pool without duplicates no chord is followed by itself. */
  lemma AdjacentChordsDiffer(p: seq<Chord>, pool: seq<Chord>, numChords: int)
    requires IsProgression(p, pool, numChords) && NoDuplicates(pool)
    ensures forall i :: 0 < i < |p| ==> p[i] != p[i - 1]
  {
    forall i | 0 < i < |p| ensures p[i] != p[i - 1] {
      RowOfDistinct(pool, p[i - 1]);
    }
  }

  /** A progression generated for a difficulty tier, or for families that are
      all different (as a multi-select returns them), never repeats a chord
      back to back. */
  lemma NoImmediateRepeats(key: Key, trainingType: string, difficultyLevel: Option<string>,
                           selectedFamilies: Option<seq<Family>>, p: seq<Chord>, numChords: int)
    requires trainingType == FamilyTraining && selectedFamilies.Some? ==> NoDuplicates(selectedFamilies.value)
    requires ChordPool(key, trainingType, difficultyLevel, selectedFamilies).Ok?
    requires IsProgression(p, ChordPool(key, trainingType, difficultyLevel, selectedFamilies).value, numChords)
    ensures forall i :: 0 < i < |p| ==> p[i] != p[i - 1]
  {
    PoolDistinct(key, trainingType, difficultyLevel, selectedFamilies);
    AdjacentChordsDiffer(p, ChordPool(key, trainingType, difficultyLevel, selectedFamilies).value, numChords);
  }

  /** A progression has `num_chords` chords whenever at least one is asked for. */
  lemma ProgressionLength(p: seq<Chord>, pool: seq<Chord>, numChords: int)
    requires IsProgression(p, pool, numChords)
    ensures numChords >= 1 ==> |p| == numChords
    ensures numChords < 1 ==> |p| == 1
  {
  }
}
