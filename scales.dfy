/**
  The scale library: the seven diatonic modes, each written as semitone
  offsets from C, and the order in which they are offered for selection.
*/
module Scales {

  /** The mode table, keyed by mode name. */
  const SCALES: map<string, seq<int>> := map[
    "Ionian"     := [0, 2, 4, 5, 7, 9, 11],
    "Dorian"     := [0, 2, 3, 5, 7, 9, 10],
    "Phrygian"   := [0, 1, 3, 5, 7, 8, 10],
    "Lydian"     := [0, 2, 4, 6, 7, 9, 11],
    "Mixolydian" := [0, 2, 4, 5, 7, 9, 10],
    "Aeolian"    := [0, 2, 3, 5, 7, 8, 10],
    "Locrian"    := [0, 1, 3, 5, 6, 8, 10]
  ]

  /** The names in the table's insertion order: the list the scale knob chooses from. */
  const ScaleNames: seq<string> :=
    ["Ionian", "Dorian", "Phrygian", "Lydian", "Mixolydian", "Aeolian", "Locrian"]

  /** The scale the device starts with. */
  const DefaultScale: string := "Ionian"

  /** A heptatonic mode: seven strictly increasing offsets inside one octave, starting on the tonic. */
  predicate WellFormedScale(s: seq<int>)
  {
    && |s| == 7
    && s[0] == 0
    && (forall i :: 0 <= i < |s| ==> 0 <= s[i] <= 11)
    && (forall i, j :: 0 <= i < j < |s| ==> s[i] < s[j])
  }

  /** No offset occurs twice. */
  predicate Distinct(s: seq<int>)
  {
    forall i, j :: 0 <= i < j < |s| ==> s[i] != s[j]
  }

  /** Strictly increasing offsets are in particular pairwise distinct. */
  lemma WellFormedIsDistinct(s: seq<int>)
    requires WellFormedScale(s)
    ensures Distinct(s)
  {
  }

  /** Every entry of the table is a well-formed heptatonic mode. */
  lemma AllScalesWellFormed(name: string)
    requires name in SCALES
    ensures WellFormedScale(SCALES[name])
    ensures |SCALES[name]| == 7
  {
  }

  /** The selection list holds exactly the keys of the table, each once, and starts with the default. */
  lemma ScaleNamesAreKeys()
    ensures |ScaleNames| == 7
    ensures forall name :: name in SCALES <==> name in ScaleNames
    ensures forall i, j :: 0 <= i < j < |ScaleNames| ==> ScaleNames[i] != ScaleNames[j]
    ensures ScaleNames[0] == DefaultScale && DefaultScale in SCALES
  {
  }
}
