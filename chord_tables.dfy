/** The four constant chord tables, keyed by the seven supported keys, and the
    mapping from a family's display name to its table. */
module ChordTables {
  import opened Lists

  /** The seven keys of the tables; a key outside them is a lookup error the
      model rules out by its type. */
  datatype Key = C | G | D | A | E | F | B

  type Chord = string

  /** `power_chords[key]`. */
  function PowerChords(key: Key): (r: seq<Chord>)
    ensures |r| == 7 && NoDuplicates(r)
  {
    match key
    case C => ["C5", "D5", "E5", "F5", "G5", "A5", "B5"]
    case G => ["G5", "A5", "B5", "C5", "D5", "E5", "F#5"]
    case D => ["D5", "E5", "F#5", "G5", "A5", "B5", "C#5"]
    case A => ["A5", "B5", "C#5", "D5", "E5", "F#5", "G#5"]
    case E => ["E5", "F#5", "G#5", "A5", "B5", "C#5", "D#5"]
    case F => ["F5", "G5", "A5", "Bb5", "C5", "D5", "E5"]
    case B => ["B5", "C#5", "D#5", "E5", "F#5", "G#5", "A#5"]
  }

  /** `seventh_chords_major[key]`. */
  function SeventhChordsMajor(key: Key): (r: seq<Chord>)
    ensures |r| == 7 && NoDuplicates(r)
  {
    match key
    case C => ["Cmaj7", "Dm7", "Em7", "Fmaj7", "G7", "Am7", "Bdim7"]
    case G => ["Gmaj7", "Am7", "Bm7", "Cmaj7", "D7", "Em7", "F#dim7"]
    case D => ["Dmaj7", "Em7", "F#m7", "Gmaj7", "A7", "Bm7", "C#dim7"]
    case A => ["Amaj7", "Bm7", "C#m7", "Dmaj7", "E7", "F#m7", "G#dim7"]
    case E => ["Emaj7", "F#m7", "G#m7", "Amaj7", "B7", "C#m7", "D#dim7"]
    case F => ["Fmaj7", "Gm7", "Am7", "Bbmaj7", "C7", "Dm7", "Edim7"]
    case B => ["Bmaj7", "C#m7", "D#m7", "Emaj7", "F#7", "G#m7", "A#dim7"]
  }

  /** `extended_chords[key]`. */
  function ExtendedChords(key: Key): (r: seq<Chord>)
    ensures |r| == 4 && NoDuplicates(r)
  {
    match key
    case C => ["C9", "C11", "C13", "Cadd9"]
    case G => ["G9", "G11", "G13", "Gadd9"]
    case D => ["D9", "D11", "D13", "Dadd9"]
    case A => ["A9", "A11", "A13", "Aadd9"]
    case E => ["E9", "E11", "E13", "Eadd9"]
    case F => ["F9", "F11", "F13", "Fadd9"]
    case B => ["B9", "B11", "B13", "Badd9"]
  }

  /** `dim_aug_chords[key]`. */
  function DimAugChords(key: Key): (r: seq<Chord>)
    ensures |r| == 3 && NoDuplicates(r)
  {
    match key
    case C => ["Cdim", "Caug", "Cdim7"]
    case G => ["Gdim", "Gaug", "Gdim7"]
    case D => ["Ddim", "Daug", "Ddim7"]
    case A => ["Adim", "Aaug", "Adim7"]
    case E => ["Edim", "Eaug", "Edim7"]
    case F => ["Fdim", "Faug", "Fdim7"]
    case B => ["Bdim", "Baug", "Bdim7"]
  }

  /** The keys of `chord_family_mapping`; a name outside them is a lookup error
      the model rules out by its type, as it does for keys. */
  datatype Family = PowerFamily | SeventhFamily | ExtendedFamily | DimAugFamily

  /** The display name a family is selected by. */
  function FamilyName(f: Family): (name: string)
  {
    match f
    case PowerFamily => "Power Chords"
    case SeventhFamily => "Seventh Chords Major"
    case ExtendedFamily => "Extended Chords"
    case DimAugFamily => "Diminished & Augmented Chords"
  }

  /** Different families are selected by different names (the four names even
      differ in length). */
  lemma FamilyNamesDistinct(f: Family, g: Family)
    ensures FamilyName(f) == FamilyName(g) <==> f == g
  {
    if f != g {
      assert |FamilyName(f)| != |FamilyName(g)|;
    }
  }

  /** `chord_family_mapping[FamilyName(f)][key]`. */
  function FamilyTable(f: Family, key: Key): (r: seq<Chord>)
    ensures 3 <= |r| <= 7 && NoDuplicates(r)
  {
    match f
    case PowerFamily => PowerChords(key)
    case SeventhFamily => SeventhChordsMajor(key)
    case ExtendedFamily => ExtendedChords(key)
    case DimAugFamily => DimAugChords(key)
  }

  /** The last character of a chord name.  This function and the four
      `...Endings` lemmas below model nothing in the source: they are proof
      steps for the disjointness lemmas, since the tables can be told apart by
      the last character of their names (except the seventh chords from the
      diminished and augmented ones). */
  function LastSymbol(c: Chord): char
  {
    if c == [] then ' ' else c[|c| - 1]
  }

  lemma PowerEndings(key: Key)
    ensures forall i :: 0 <= i < |PowerChords(key)| ==> LastSymbol(PowerChords(key)[i]) == '5'
  {
  }

  lemma SeventhEndings(key: Key)
    ensures forall i :: 0 <= i < |SeventhChordsMajor(key)| ==> LastSymbol(SeventhChordsMajor(key)[i]) == '7'
  {
  }

  lemma ExtendedEndings(key: Key)
    ensures forall i :: 0 <= i < |ExtendedChords(key)| ==> LastSymbol(ExtendedChords(key)[i]) in {'9', '1', '3'}
  {
  }

  lemma DimAugEndings(key: Key)
    ensures forall i :: 0 <= i < |DimAugChords(key)| ==> LastSymbol(DimAugChords(key)[i]) in {'m', 'g', '7'}
  {
  }

  /** For one key, each pair of tables shares no chord name. */
  lemma PowerSeventhDisjoint(key: Key)
    ensures Elements(PowerChords(key)) !! Elements(SeventhChordsMajor(key))
  {
    PowerEndings(key);
    SeventhEndings(key);
  }

  lemma PowerExtendedDisjoint(key: Key)
    ensures Elements(PowerChords(key)) !! Elements(ExtendedChords(key))
  {
    PowerEndings(key);
    ExtendedEndings(key);
  }

  lemma PowerDimAugDisjoint(key: Key)
    ensures Elements(PowerChords(key)) !! Elements(DimAugChords(key))
  {
    PowerEndings(key);
    DimAugEndings(key);
  }

  lemma SeventhExtendedDisjoint(key: Key)
    ensures Elements(SeventhChordsMajor(key)) !! Elements(ExtendedChords(key))
  {
    SeventhEndings(key);
    ExtendedEndings(key);
  }

  lemma SeventhDimAugDisjoint(key: Key)
    ensures Elements(SeventhChordsMajor(key)) !! Elements(DimAugChords(key))
  {
    match key
    case C =>
    case G =>
    case D =>
    case A =>
    case E =>
    case F =>
    case B =>
  }

  lemma ExtendedDimAugDisjoint(key: Key)
    ensures Elements(ExtendedChords(key)) !! Elements(DimAugChords(key))
  {
    ExtendedEndings(key);
    DimAugEndings(key);
  }

  /** For one key, two different families never share a chord name. */
  lemma FamilyTablesDisjoint(f: Family, g: Family, key: Key)
    requires f != g
    ensures Elements(FamilyTable(f, key)) !! Elements(FamilyTable(g, key))
  {
    PowerSeventhDisjoint(key);
    PowerExtendedDisjoint(key);
    PowerDimAugDisjoint(key);
    SeventhExtendedDisjoint(key);
    SeventhDimAugDisjoint(key);
    ExtendedDimAugDisjoint(key);
  }
}
