/** The audio data model: song entries, the rest sentinel, the chromatic
    note frequencies from C3 to D6, the note lengths and the default
    envelope arguments of the blocking note player. */
module Notes {

  /** One song entry: a tone frequency in Hz (`Rest` for silence) and its length in ms. */
  datatype Note = Note(freq: int, duration: int)

  /** The frequency that stands for silence; a rest still lasts its duration. */
  const Rest: int := 0

  // Three octaves of the chromatic scale, C3 to D6, rounded to whole Hz.
  const C3: int := 131
  const Cs3: int := 139
  const D3: int := 147
  const Ds3: int := 156
  const E3: int := 165
  const F3: int := 175
  const Fs3: int := 185
  const G3: int := 196
  const Gs3: int := 208
  const A3: int := 220
  const As3: int := 233
  const B3: int := 247

  const C4: int := 262
  const Cs4: int := 277
  const D4: int := 294
  const Ds4: int := 311
  const E4: int := 330
  const F4: int := 349
  const Fs4: int := 370
  const G4: int := 392
  const Gs4: int := 415
  const A4: int := 440
  const As4: int := 466
  const B4: int := 494

  const C5: int := 523
  const Cs5: int := 554
  const D5: int := 587
  const Ds5: int := 622
  const E5: int := 659
  const F5: int := 698
  const Fs5: int := 740
  const G5: int := 784
  const Gs5: int := 831
  const A5: int := 880
  const As5: int := 932
  const B5: int := 988

  const C6: int := 1047
  const Cs6: int := 1109
  const D6: int := 1175

  /** Every note constant, lowest first. */
  const Scale: seq<int> := [
    C3, Cs3, D3, Ds3, E3, F3, Fs3, G3, Gs3, A3, As3, B3,
    C4, Cs4, D4, Ds4, E4, F4, Fs4, G4, Gs4, A4, As4, B4,
    C5, Cs5, D5, Ds5, E5, F5, Fs5, G5, Gs5, A5, As5, B5,
    C6, Cs6, D6]

  // Note lengths in ms.
  const Whole: int := 1600
  const Half: int := 800
  const Quarter: int := 400
  const Eighth: int := 200
  const Sixteenth: int := 100

  /** The sustain argument that asks the note player to derive sustain from the duration. */
  const DeriveSustain: int := -1

  // Default envelope arguments of the blocking note player.
  const DefaultAttack: int := 10
  const DefaultDecay: int := 10
  const DefaultSustain: int := DeriveSustain
  const DefaultRelease: int := 100
  const DefaultLevel: real := 0.8

  /** The note constants as a set: membership in a set display is what the proofs about
      the song tables can afford; `NotesAreTheScale` shows it holds exactly the scale. */
  const NoteFrequencies: set<int> := {
    C3, Cs3, D3, Ds3, E3, F3, Fs3, G3, Gs3, A3, As3, B3,
    C4, Cs4, D4, Ds4, E4, F4, Fs4, G4, Gs4, A4, As4, B4,
    C5, Cs5, D5, Ds5, E5, F5, Fs5, G5, Gs5, A5, As5, B5,
    C6, Cs6, D6}

  /** A frequency the note constants name. */
  predicate IsNoteFrequency(f: int) {
    f in NoteFrequencies
  }

  /** A song entry the tables may hold: positive length, and a rest or a note of the scale. */
  predicate WellFormedNote(n: Note) {
    n.duration > 0 && (n.freq == Rest || IsNoteFrequency(n.freq))
  }

  predicate AdjacentIncreasing(s: seq<int>) {
    forall i :: 0 <= i < |s| - 1 ==> s[i] < s[i + 1]
  }

  predicate StrictlyIncreasing(s: seq<int>) {
    forall i, j :: 0 <= i < j < |s| ==> s[i] < s[j]
  }

  /** A sequence that increases at each step increases between any two positions. */
  lemma {:induction false} AdjacentToStrict(s: seq<int>)
    requires AdjacentIncreasing(s)
    ensures StrictlyIncreasing(s)
  {
    if |s| > 1 {
      var t := s[1..];
      assert AdjacentIncreasing(t) by {
        forall i | 0 <= i < |t| - 1 ensures t[i] < t[i + 1] {
          assert t[i] == s[i + 1] && t[i + 1] == s[i + 2];
        }
      }
      AdjacentToStrict(t);
      forall i, j | 0 <= i < j < |s| ensures s[i] < s[j] {
        if i > 0 {
          assert s[i] == t[i - 1] && s[j] == t[j - 1];
        } else if j > 1 {
          assert s[0] < s[1] && s[1] == t[0] && s[j] == t[j - 1];
        }
      }
    }
  }

  /** The note constants strictly increase from C3 to D6. */
  lemma ScaleStrictlyIncreasing()
    ensures |Scale| == 39 && Scale[0] == C3 && Scale[38] == D6
    ensures StrictlyIncreasing(Scale)
  {
    assert AdjacentIncreasing(Scale);
    AdjacentToStrict(Scale);
  }

  /** Every note frequency is positive, so none can be mistaken for the rest sentinel. */
  lemma NotesAreNotRests(f: int)
    requires IsNoteFrequency(f)
    ensures f > 0 && f != Rest
  {
  }

  /** The set and the scale hold the same frequencies. */
  lemma NotesAreTheScale()
    ensures forall f :: f in NoteFrequencies <==> f in Scale
  {
  }

  /** Each note length is twice the next shorter one. */
  lemma DurationsHalve()
    ensures Whole == 2 * Half && Half == 2 * Quarter
    ensures Quarter == 2 * Eighth && Eighth == 2 * Sixteenth
  {
  }
}
