# Guitar chord progression generator, modelled in Dafny

GuitarPartner generates practice chord progressions from a few inputs: a key, a
training type and either a difficulty tier or a set of chord families. This
project models its generator core in `app.py`:

- the four constant chord tables (power, seventh-major, extended,
  diminished/augmented), keyed by the seven supported keys;
- the pool builder, the first half of `generate_chord_progression`:
  - difficulty mode concatenates fixed tables per tier;
  - family mode appends the selected families' tables for the one key;
  - two `ValueError`s are raised: no family selected, or an empty pool;
- `build_transition_matrix`. For every chord of the pool it stores a row. The
  row is built from a copy of the pool with that chord's first occurrence
  removed, and weights each remaining candidate `1 / len`;
- the progression loop. It starts from a random pool element and then draws
  each next chord from the current chord's row.

Modules:

- `Lists` (lists.dfy): Python list facts:
  - `remove` on a copy (`RemoveFirst`);
  - the key order of a dictionary filled from a list (`Dedup`);
  - concatenating a list per element (`FlatMap`, for `extend` in a loop).
- `Dicts` (dicts.dfy): a Python dictionary is an insertion-ordered sequence of
  entries with unique keys. `Put` is `d[k] = v` and `FromKeys` is a dict
  comprehension. `Total` is the sum of the values.
- `ChordTables` (chord_tables.dfy):
  - the tables, each with the exact strings of the source;
  - the four chord families and the display names they are selected by;
  - proofs that different families never share a chord name for the same key.
- `TransitionMatrices` (transition_matrix.dfy): `RowOf` is the row of one
  chord, and `TransitionMatrix` is the matrix the loop leaves behind.
  `BuildTransitionMatrix` is the loop itself, proved equal to that function.
- `Generator` (generator.dfy): the pool builder as a function (`ChordPool`) and
  as a method with the family loop (`BuildChordPool`, `ExtendFamilies`). Also the
  progression loop (`WalkProgression`) and the whole call
  (`GenerateChordProgression`).

Modelling choices:

- Python values are Dafny values. Lists are sequences, and the matrix is a
  `map` from chord to row.
- Weights are reals: `1 / len(next_chords)` is `1.0 / (|next| as real)`.
- Randomness is nondeterministic choice (`:|`):
  - the first chord is any element of the pool;
  - each next chord is any key of the current row with positive weight, which is
    exactly the support of `random.choices`.

  Every property holds for every possible draw.
- Keys and families are datatypes, so a key or a family name outside the tables
  cannot be expressed. The source would raise `KeyError` for one.
- `training_type` and `difficulty_level` stay strings, because an unrecognised
  value is a handled case (it leaves the pool empty).
- Missing arguments are `Option` values (`None`).

Two points about the code that are easy to get wrong:

- **Single-chord pool.** Such a pool does not divide by zero. The
  comprehension that would divide never runs, so the row is `{}`. The call
  fails only when `random.choices` then runs on that empty row, which raises an
  `IndexError` (here `EmptyPopulation`) and needs `num_chords >= 2`.
  `WalkProgression` states this as an if-and-only-if. `PoolSize` shows that
  pools built from the tables always have at least three chords.
- **Repeated chord names.** Every occurrence of a repeated name produces the
  same row: the whole list minus its first occurrence. Repetition therefore
  does not change the matrix's keys. What it changes:
  - a repeated chord can follow itself (`RowSupport`);
  - when the pool has at least two chords, a row sums to less than 1 exactly
    when the copy it was built from still repeats a name (`RowTotal`). For
    example, in `["a", "a", "b"]` the row of `"b"` comes from `["a", "a"]` and
    sums to 1/2. The row of `"a"` comes from `["a", "b"]`, sums to 1, and
    still contains `"a"`. A one-chord pool's row is empty and sums to 0.
- **No repeated name.** Then every row holds every other chord and never its
  own chord. When the pool has at least two chords the row also sums to 1
  (`RowOfDistinct`). Conversely, a repeated name can follow itself, so no chord
  can follow itself exactly when the pool has no repeated name
  (`SelfTransitionIff`). Every difficulty tier, and every selection of
  distinct families, gives such a pool (`PoolDistinct`).

## Model

| member | source | states |
|---|---|---|
| ChordTables.PowerChords | app.py:5-13 | each key's power-chord list has 7 chords, none repeated |
| ChordTables.SeventhChordsMajor | app.py:15-23 | each key's seventh-chord list has 7 chords, none repeated |
| ChordTables.ExtendedChords | app.py:25-33 | each key's extended-chord list has 4 chords, none repeated |
| ChordTables.DimAugChords | app.py:35-43 | each key's diminished/augmented list has 3 chords, none repeated |
| ChordTables.FamilyName | app.py:94-99 | definition; no contract: the display name each family is selected by |
| ChordTables.FamilyTable | app.py:94-99 | every family's list for a key has between 3 and 7 chords, none repeated |
| ChordTables.FamilyNamesDistinct | app.py:94-99 | two families have the same display name exactly when they are the same family |
| ChordTables.FamilyTablesDisjoint | app.py:5-43 | for one key, two different families share no chord name |
| Lists.RemoveFirst | app.py:49-50 | removing from the copy drops exactly one element |
| Lists.RemoveFirstMultiset | app.py:50 | `remove(x)` takes away one `x` and leaves every other element |
| Lists.RemoveFirstAt | app.py:50 | `remove(x)` cuts the list at the first occurrence of `x` |
| Lists.RemoveFirstMembers | app.py:50 | after `remove(x)`, `y` is present iff it was present and is not `x`, or `x` occurred at least twice |
| Lists.RemoveFirstOfDistinct | app.py:50 | on a list without repeats, `remove(x)` leaves no `x`, no repeats, and every other element |
| Lists.Dedup | app.py:51 | the keys of a comprehension over a list: no repeats, and exactly the list's elements |
| Lists.DedupOrder | app.py:51 | the comprehension's keys appear in the order of their first occurrence in the list |
| Lists.DedupLength | app.py:51 | the comprehension keeps every element of a list without repeats, and loses entries otherwise |
| Dicts.Keys | app.py:116 | definition; no contract: `list(d.keys())`, the keys in insertion order |
| Dicts.Put | app.py:51 | `d[k] = v` keeps the keys unique; a present key keeps its place, a new one goes last; only `k`'s value changes |
| Dicts.FromKeys | app.py:51 | `{x: v for x in xs}` has the distinct elements of `xs` as keys, in first-occurrence order, all mapped to `v` |
| Dicts.TotalOfShares | app.py:51 | at most `n` weights of `1/n` add up to at most 1, and to 1 exactly when there are `n` of them |
| TransitionMatrices.RowOf | app.py:49-51 | definition; no contract: the row of `c` is the comprehension over the list with its first `c` removed |
| TransitionMatrices.TransitionMatrix | app.py:46-52 | definition; no contract: one row per distinct chord of the list |
| TransitionMatrices.UniformRow | app.py:51 | a row's keys are the distinct candidates, each weighted `1/len(next_chords)`; an empty copy gives an empty row without dividing |
| TransitionMatrices.BuildTransitionMatrix | app.py:46-52 | the loop builds exactly the matrix `TransitionMatrix(chord_list)` |
| TransitionMatrices.MatrixKeys | app.py:46-52 | the matrix has one entry per distinct chord of the list |
| TransitionMatrices.MatrixRows | app.py:48-51 | the entry of `c` lists the distinct chords left after removing the first `c` |
| TransitionMatrices.RowSupport | app.py:49-51 | `d` can follow `c` iff `d` is in the list and differs from `c`, or `c` occurs twice |
| TransitionMatrices.RowWeights | app.py:51 | every weight is `1/(len(chord_list)-1)` and positive; a row is empty iff the list has one chord |
| TransitionMatrices.RowOfDistinct | app.py:49-51 | without repeats, a row holds every other chord in order, never `c`, and sums to 1 when the list has at least two chords |
| TransitionMatrices.SelfTransitionIff | app.py:49-51 | no chord of the list can follow itself iff the list has no repeated name |
| TransitionMatrices.RowTotal | app.py:51 | for a list of at least two chords, a row sums to at most 1, and to exactly 1 iff the copy it was built from has no repeats |
| Generator.DifficultyPool | app.py:77-87 | definition; no contract: the tier concatenations, and an empty list for any other level |
| Generator.ChordPool | app.py:74-106 | definition; no contract: the pool of a request, or the `ValueError` it raises; the pool lemmas below are stated about it |
| Generator.FamilyPool | app.py:102-103 | the family pool has between 3 and 7 chords per selected family |
| Generator.ExtendFamilies | app.py:102-103 | the `extend` loop yields the selected families' tables appended in order |
| Generator.BuildChordPool | app.py:74-106 | the pool builder returns the pool of `ChordPool`, or the same `ValueError` |
| Generator.WalkProgression | app.py:110-119 | for every draw: it fails iff the pool has one chord and `num_chords >= 2`; otherwise it returns `1 + max(num_chords-1, 0)` chords of the pool, each a key of its predecessor's row |
| Generator.GenerateChordProgression | app.py:55-121 | the call fails exactly with the pool's `ValueError`; otherwise it returns a progression over the pool |
| Generator.DifficultyPools | app.py:77-87 | Beginner, Intermediate and Expert give the listed concatenations, of 7, 14 and 14 chords for every key |
| Generator.TiersArePresetFamilies | app.py:77-99 | each tier equals the family pool of a fixed family list |
| Generator.NoFamilySelectedIff | app.py:90-92 | the first `ValueError` is raised iff family mode gets `None` or no family |
| Generator.FamilyModePool | app.py:94-103 | family mode with families yields their tables appended in the order given |
| Generator.NoValidChordsIff | app.py:77-106 | the second `ValueError` is raised iff the training type is unknown, or a difficulty level is not a tier |
| Generator.PoolSize | app.py:74-106 | every pool that is returned has at least 3 chords |
| Generator.FamilyPoolAppend | app.py:102-103 | appending family lists appends their pools |
| Generator.FamilyPoolMembers | app.py:102-103 | a chord is in the family pool iff a selected family lists it |
| Generator.FamilyPoolDistinct | app.py:94-103 | the family pool repeats a chord iff a family is selected twice |
| Generator.DifficultyPoolDistinct | app.py:77-87 | no tier repeats a chord |
| Generator.PoolDistinct | app.py:77-103 | difficulty pools, and pools of distinct families, repeat no chord |
| Generator.AdjacentChordsDiffer | app.py:112-119 | over a pool without repeats, no chord is followed by itself |
| Generator.NoImmediateRepeats | app.py:108-119 | a progression for a tier or for distinct families never repeats a chord back to back |
| Generator.ProgressionLength | app.py:110-119 | the progression has `num_chords` chords when `num_chords >= 1`, and one chord otherwise |

## Left out

- The Streamlit user interface (app.py:124-167): widgets, rendering and the
  success/error messages. It is input and output only.
- The `mode` argument (app.py:57). It is accepted but never read, so the model
  does not take it.
- The probabilities of `random.choice` and `random.choices`. The model fixes
  only which values each draw can return, not how likely each one is.
- IEEE floating point. Weights are exact reals, so rounding in `1 / len` and
  in the sums is not modelled.
- `KeyError` for a key or family name outside the tables. The datatypes rule
  such inputs out. One consequence: the source raises "No valid chords" for
  difficulty mode with an unknown level even when the key is unknown, because
  it never looks the key up there; the model cannot express that input.
- Family mode takes the families as `ChordTables.Family` values, not as their
  display strings. `FamilyName` gives the string the source looks up.
- `if not selected_families` treats every falsy value as "no family"; the model
  covers only `None` and the empty list.
- Aliasing. Beginner mode passes `power_chords[key]` itself to
  `build_transition_matrix`, and the function copies before calling `remove`,
  so the table is not changed. Sequences are values here, so the tables cannot
  be changed at all. The model therefore does not show that the copy is what
  protects them.
