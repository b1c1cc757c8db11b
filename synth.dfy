/** The envelope derivations of the note players. The frequency synthesizer
    and the envelope generator are hardware; what the code does to them is
    modelled as a trace of abstract events, and blocking waits appear as
    events too (`Sleep`, `AwaitIdle`) instead of passing time. */
module Synth {
  import opened Notes

  /** Attack, decay, sustain and release in ms, and the peak level in 0..1. */
  datatype Envelope = Envelope(attack: int, decay: int, sustain: int, release: int, level: real)

  datatype SynthEvent =
    | SetFreq(hz: int)        // the synthesizer's carrier frequency
    | SetEnv(env: Envelope)   // the envelope generator's parameters
    | StartEnv                // trigger the envelope
    | Sleep(ms: int)          // block the caller for a fixed time
    | AwaitIdle               // block until the envelope has released

  /** No event of the trace reaches the synthesizer or the envelope generator. */
  predicate Silent(events: seq<SynthEvent>) {
    forall k :: 0 <= k < |events| ==> events[k].Sleep? || events[k].AwaitIdle?
  }

  /** Sustain of the blocking player: the explicit value, or with the `DeriveSustain`
      sentinel whatever the duration leaves after attack, decay and release; never negative. */
  function NoteSustain(durationMs: int, attack: int, decay: int, sustain: int, release: int): (s: int)
    ensures s >= 0
    ensures sustain == DeriveSustain ==> (s == 0 <==> durationMs <= attack + decay + release)
    ensures sustain == DeriveSustain && s > 0 ==> attack + decay + s + release == durationMs
    ensures sustain != DeriveSustain && sustain >= 0 ==> s == sustain
    ensures sustain != DeriveSustain && sustain < 0 ==> s == 0
  {
    var wanted := if sustain == DeriveSustain then durationMs - (attack + decay + release) else sustain;
    if wanted < 0 then 0 else wanted
  }

  /** The blocking note player: set the tone, configure and trigger the envelope,
      then block for the whole duration. */
  function PlayNote(freq: int, durationMs: int, attack: int, decay: int, sustain: int,
                    release: int, level: real): (events: seq<SynthEvent>)
    ensures |events| == 4 && events[0] == SetFreq(freq) && events[2] == StartEnv
    ensures events[1].SetEnv? && events[1].env.sustain >= 0
    ensures events[1].env == Envelope(attack, decay, NoteSustain(durationMs, attack, decay, sustain, release), release, level)
    ensures events[3] == Sleep(durationMs)
  {
    [SetFreq(freq),
     SetEnv(Envelope(attack, decay, NoteSustain(durationMs, attack, decay, sustain, release), release, level)),
     StartEnv,
     Sleep(durationMs)]
  }

  /** The blocking note player called with its default envelope arguments: sustain is
      what is left of the duration after 120 ms of attack, decay and release, and a note
      shorter than that gets no sustain at all. */
  function PlayDefaultNote(freq: int, durationMs: int): (events: seq<SynthEvent>)
    ensures |events| == 4 && events[0] == SetFreq(freq) && events[2] == StartEnv
    ensures events[1] == SetEnv(Envelope(10, 10, if durationMs < 120 then 0 else durationMs - 120, 100, 0.8))
    ensures events[3] == Sleep(durationMs)
  {
    PlayNote(freq, durationMs, DefaultAttack, DefaultDecay, DefaultSustain, DefaultRelease, DefaultLevel)
  }

  /** The percussive envelope: short attack, decay and release around the rest of the note. */
  function SmashEnvelope(durationMs: int): (env: Envelope)
    ensures env.attack == 2 && env.decay == 2 && env.release == 10 && env.level == 0.9
    ensures env.sustain >= 0
    ensures env.attack + env.decay + env.sustain + env.release >= durationMs
    ensures durationMs >= 14 ==> env.attack + env.decay + env.sustain + env.release == durationMs
    ensures env.sustain == (if durationMs < 14 then 0 else durationMs - 14)
  {
    var sustain := durationMs - (2 + 2 + 10);
    Envelope(2, 2, if sustain < 0 then 0 else sustain, 10, 0.9)
  }

  /** The impact variant: a rest only blocks for its duration; a note triggers the
      percussive envelope and blocks until the envelope generator is idle. */
  function SmashNote(freq: int, durationMs: int): (events: seq<SynthEvent>)
    ensures Silent(events) <==> freq == Rest
    ensures freq == Rest ==> events == [Sleep(durationMs)]
    ensures freq != Rest ==> events == [SetFreq(freq), SetEnv(SmashEnvelope(durationMs)), StartEnv, AwaitIdle]
  {
    if freq == Rest then
      [Sleep(durationMs)]
    else
      var events := [SetFreq(freq), SetEnv(SmashEnvelope(durationMs)), StartEnv, AwaitIdle];
      assert events[0].SetFreq?;
      events
  }

  /** Sustain used by the non-blocking song player: 30 ms less than the note,
      and at least 5 ms, so it is never shorter than 1 ms. */
  function TickSustain(durationMs: int): (s: int)
    ensures s >= 1
    ensures durationMs > 30 ==> s == durationMs - 30
    ensures durationMs <= 30 ==> s == 5
  {
    if durationMs - 30 > 0 then durationMs - 30 else 5
  }

  /** The envelope the song player writes for a sounding entry. */
  function TickEnvelope(durationMs: int): (env: Envelope)
    ensures env == Envelope(5, 10, TickSustain(durationMs), 20, 0.8)
    ensures env.sustain >= 1
  {
    Envelope(5, 10, TickSustain(durationMs), 20, 0.8)
  }

  /** The countdown beep: the first three steps are a short C5 with an explicit
      300 ms sustain, the last a long G5 with an explicit 500 ms sustain. */
  function CountdownBeep(n: int): (events: seq<SynthEvent>)
    ensures n < 3 ==> events == PlayNote(C5, 150, 5, 10, 300, 100, DefaultLevel)
    ensures n >= 3 ==> events == PlayNote(G5, 500, 10, 10, 500, 200, DefaultLevel)
    ensures events[1].env.sustain == (if n < 3 then 300 else 500)
  {
    if n < 3 then
      PlayNote(C5, 150, 5, 10, 300, 100, DefaultLevel)
    else
      PlayNote(G5, 500, 10, 10, 500, 200, DefaultLevel)
  }

  /** The goal fanfare: C5 and E5 for an eighth each, then G5 for a quarter. */
  function GoalTune(): (events: seq<SynthEvent>)
    ensures |events| == 12
    ensures events[0] == SetFreq(C5) && events[4] == SetFreq(E5) && events[8] == SetFreq(G5)
    ensures events[3] == Sleep(Eighth) && events[7] == Sleep(Eighth) && events[11] == Sleep(Quarter)
  {
    PlayDefaultNote(C5, Eighth) + PlayDefaultNote(E5, Eighth) + PlayDefaultNote(G5, Quarter)
  }

  /** Total time a trace blocks on fixed sleeps. */
  function SleepTotal(events: seq<SynthEvent>): (ms: int)
    decreases |events|
  {
    if events == [] then 0
    else (if events[0].Sleep? then events[0].ms else 0) + SleepTotal(events[1..])
  }

  lemma {:induction false} SleepTotalAppend(a: seq<SynthEvent>, b: seq<SynthEvent>)
    ensures SleepTotal(a + b) == SleepTotal(a) + SleepTotal(b)
    decreases |a|
  {
    if a != [] {
      assert (a + b)[0] == a[0] && (a + b)[1..] == a[1..] + b;
      SleepTotalAppend(a[1..], b);
    } else {
      assert a + b == b;
    }
  }

  /** A blocking note blocks exactly for its duration. */
  lemma PlayNoteBlocksForDuration(freq: int, durationMs: int, attack: int, decay: int,
                                  sustain: int, release: int, level: real)
    ensures SleepTotal(PlayNote(freq, durationMs, attack, decay, sustain, release, level)) == durationMs
  {
    var e := PlayNote(freq, durationMs, attack, decay, sustain, release, level);
    assert SleepTotal(e[3..]) == durationMs by {
      assert e[3..][1..] == [];
    }
    assert e[2..][1..] == e[3..] && e[1..][1..] == e[2..] && e[1..][1..] == e[2..];
    assert SleepTotal(e[1..]) == SleepTotal(e[2..]) == SleepTotal(e[3..]);
  }

  /** The fanfare blocks for 800 ms, and each of its notes keeps the default envelope. */
  lemma GoalTuneTiming()
    ensures SleepTotal(GoalTune()) == 800
    ensures GoalTune()[1].env.sustain == 80 && GoalTune()[5].env.sustain == 80
    ensures GoalTune()[9].env.sustain == 280
  {
    var a, b, c := PlayDefaultNote(C5, Eighth), PlayDefaultNote(E5, Eighth), PlayDefaultNote(G5, Quarter);
    SleepTotalAppend(a + b, c);
    SleepTotalAppend(a, b);
    PlayNoteBlocksForDuration(C5, Eighth, DefaultAttack, DefaultDecay, DefaultSustain, DefaultRelease, DefaultLevel);
    PlayNoteBlocksForDuration(E5, Eighth, DefaultAttack, DefaultDecay, DefaultSustain, DefaultRelease, DefaultLevel);
    PlayNoteBlocksForDuration(G5, Quarter, DefaultAttack, DefaultDecay, DefaultSustain, DefaultRelease, DefaultLevel);
  }

  /** Nothing in the trace blocks the caller. */
  predicate NonBlocking(events: seq<SynthEvent>) {
    forall k :: 0 <= k < |events| ==> !events[k].Sleep? && !events[k].AwaitIdle?
  }

  /** The collision blip fired during play: C4 with a sustain-free envelope at full level,
      triggered without waiting for it. */
  function CollisionSound(): (events: seq<SynthEvent>)
    ensures |events| == 3 && NonBlocking(events)
    ensures events[0] == SetFreq(C4) && events[2] == StartEnv
    ensures events[1] == SetEnv(Envelope(5, 10, 0, 50, 1.0))
  {
    [SetFreq(C4), SetEnv(Envelope(5, 10, 0, 50, 1.0)), StartEnv]
  }

  /** The kick sound fired during play: C5, an octave above the collision blip, with a
      slightly longer sustain-free envelope, triggered without waiting for it. */
  function KickSound(): (events: seq<SynthEvent>)
    ensures |events| == 3 && NonBlocking(events)
    ensures events[0] == SetFreq(C5) && events[2] == StartEnv
    ensures events[1] == SetEnv(Envelope(5, 15, 0, 60, 1.0))
    ensures events != CollisionSound()
  {
    [SetFreq(C5), SetEnv(Envelope(5, 15, 0, 60, 1.0)), StartEnv]
  }
}
