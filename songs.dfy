/** The song tables shipped with the game: a short intro played once after
    the title screen, a looping title theme, and the two end-of-match themes. */
module Songs {
  import opened Notes

  const MarioIntro: seq<Note> := [
    Note(E5, Eighth), Note(E5, Eighth), Note(Rest, Eighth), Note(E5, Eighth),
    Note(Rest, Eighth), Note(C5, Eighth), Note(E5, Quarter), Note(G5, Quarter),
    Note(Rest, Quarter), Note(G4, Quarter)
  ]

  const LuffyTheme: seq<Note> := [
    Note(Fs4, Eighth), Note(G4, Eighth), Note(A4, Quarter), Note(B4, Eighth),
    Note(Cs5, Eighth), Note(D5, Eighth), Note(E5, Eighth), Note(Fs5, Eighth),
    Note(G5, Eighth), Note(A5, Quarter), Note(D6, Quarter), Note(A5, Quarter),
    Note(G5, Eighth), Note(A5, Sixteenth), Note(G5, Sixteenth), Note(Fs5, Half)
  ]

  const ZoroTheme: seq<Note> := [
    Note(A4, Eighth), Note(B4, Eighth), Note(C5, Eighth), Note(E4, Eighth),
    Note(Gs4, Half), Note(A4, Quarter * 3), Note(As4, Quarter), Note(A4, Half)
  ]

  /** The looping title theme; a triplet note lasts `Quarter * 2 / 3` = 266 ms
      (integer division). It is one table in the source; it is written here as its
      two halves of 41 entries, the second mostly repeating the first an octave lower. */
  const SmashSplash: seq<Note> := SplashUpper + SplashLower

  const SplashUpper: seq<Note> := [
    Note(B4, Eighth), Note(Fs4, Sixteenth), Note(G4, Sixteenth), Note(Fs5, Eighth * 3),
    Note(B4, Eighth), Note(Fs5, Eighth), Note(A5, Eighth), Note(Gs5, Eighth),
    Note(E5, Eighth), Note(B4, Half), Note(Rest, Eighth), Note(B4, Sixteenth),
    Note(Cs5, Sixteenth), Note(D5, Half), Note(Rest, Eighth), Note(B4, Eighth),
    Note(D5, Eighth), Note(Fs5, Eighth), Note(E5, Quarter * 3), Note(Rest, Quarter),
    Note(B4, Eighth), Note(Fs4, Sixteenth), Note(G4, Sixteenth), Note(Fs5, Eighth * 3),
    Note(B4, Eighth), Note(Fs5, Eighth), Note(A5, Eighth), Note(Gs5, Eighth),
    Note(E5, Eighth), Note(B4, Half), Note(Rest, Eighth), Note(B4, Sixteenth),
    Note(Cs5, Sixteenth), Note(D5, Quarter), Note(E4, Quarter), Note(G4, Quarter * 2 / 3),
    Note(D5, Quarter * 2 / 3), Note(B4, Quarter * 2 / 3), Note(D5, Half), Note(E4, Sixteenth),
    Note(D4, Sixteenth)
  ]

  const SplashLower: seq<Note> := [
    Note(B3, Eighth), Note(Fs3, Sixteenth), Note(G3, Sixteenth), Note(Fs4, Eighth * 3),
    Note(B3, Eighth), Note(Fs4, Eighth), Note(A4, Eighth), Note(Gs4, Eighth),
    Note(E4, Eighth), Note(B3, Half), Note(Rest, Eighth), Note(B3, Sixteenth),
    Note(Cs4, Sixteenth), Note(D4, Half), Note(Rest, Eighth), Note(B3, Eighth),
    Note(D4, Eighth), Note(Fs4, Eighth), Note(E4, Quarter * 3), Note(Rest, Quarter),
    Note(B3, Eighth), Note(Fs3, Sixteenth), Note(G3, Sixteenth), Note(Fs4, Eighth * 3),
    Note(B3, Eighth), Note(Fs4, Eighth), Note(A4, Eighth), Note(Gs4, Eighth),
    Note(E4, Eighth), Note(B3, Half), Note(Rest, Eighth), Note(B3, Sixteenth),
    Note(Cs4, Sixteenth), Note(D4, Quarter), Note(E3, Quarter), Note(G3, Quarter * 2 / 3),
    Note(D4, Quarter * 2 / 3), Note(B3, Quarter * 2 / 3), Note(D4, Half), Note(E5, Sixteenth),
    Note(D5, Sixteenth)
  ]

  predicate AllWellFormed(song: seq<Note>) {
    forall k :: 0 <= k < |song| ==> WellFormedNote(song[k])
  }

  /** Every shipped entry has a positive length and is a rest or a note of the scale. */
  lemma MarioIntroWellFormed()
    ensures |MarioIntro| == 10 && AllWellFormed(MarioIntro)
  {
  }

  lemma LuffyThemeWellFormed()
    ensures |LuffyTheme| == 16 && AllWellFormed(LuffyTheme)
  {
  }

  lemma ZoroThemeWellFormed()
    ensures |ZoroTheme| == 8 && AllWellFormed(ZoroTheme)
  {
  }

  lemma SplashUpperWellFormed()
    ensures |SplashUpper| == 41 && AllWellFormed(SplashUpper)
  {
  }

  lemma SplashLowerWellFormed()
    ensures |SplashLower| == 41 && AllWellFormed(SplashLower)
  {
  }

  lemma SmashSplashWellFormed()
    ensures |SmashSplash| == 82 && AllWellFormed(SmashSplash)
  {
    SplashUpperWellFormed();
    SplashLowerWellFormed();
    forall k | 0 <= k < |SmashSplash| ensures WellFormedNote(SmashSplash[k]) {
      if k >= 41 {
        assert SmashSplash[k] == SplashLower[k - 41];
      }
    }
  }
}
