/** The non-blocking song player. Its file-scope state is a `SongPlayer`
    object; `PlayerState` is the same state as a value, `Step` is one call of
    the tick routine on it, and the lemmas follow a song through many ticks.
    The clock reading `now` is a parameter, and the writes to the synthesizer
    are returned as a trace. */
module Sequencer {
  import opened Common
  import opened Notes
  import opened Synth

  /** Bound song (none for a null pointer) and its claimed length, the index of the
      current entry, when that entry was triggered, and the three flags. */
  datatype PlayerState = PlayerState(song: Option<seq<Note>>, len: int, index: int,
                                     startedAt: Millis, playing: bool, done: bool,
                                     looping: bool)

  /** The state before any song is started: no song, and already done. */
  const Idle: PlayerState := PlayerState(None, 0, 0, 0, false, true, false)

  /** A tick does something only for a bound, non-empty song that has not finished. */
  predicate Active(p: PlayerState) {
    !p.done && p.song.Some? && p.len > 0
  }

  /** The index invariant: while the song is active, the current entry is inside both
      the claimed length and the bound table, so every read of it is in bounds. */
  predicate Inv(p: PlayerState) {
    && 0 <= p.index
    && (p.song.Some? ==> p.len <= |p.song.value|)
    && (Active(p) ==> p.index < p.len)
  }

  function CurrentNote(p: PlayerState): (n: Note)
    requires Inv(p) && Active(p)
    ensures n in p.song.value
  {
    p.song.value[p.index]
  }

  /** How long the current entry lasts, as the tick routine compares it: converted to
      the unsigned type of the clock. */
  function Threshold(p: PlayerState): Millis
    requires Inv(p) && Active(p)
  {
    AsUnsigned(CurrentNote(p).duration)
  }

  /** Binding a song resets the index and the flags, whatever the previous state;
      only the last trigger time survives. */
  function StartSong(p: PlayerState, song: Option<seq<Note>>, len: int, looping: bool): (r: PlayerState)
    requires song.Some? ==> len <= |song.value|
    ensures Inv(r)
    ensures r.song == song && r.len == len && r.looping == looping
    ensures r.index == 0 && !r.playing && !r.done && r.startedAt == p.startedAt
  {
    PlayerState(song, len, 0, p.startedAt, false, false, looping)
  }

  /** One tick at time `now`. */
  function Step(p: PlayerState, now: Millis): (r: PlayerState)
    requires Inv(p)
    ensures Inv(r)
    ensures r.song == p.song && r.len == p.len && r.looping == p.looping
    // finished, unbound or empty: nothing changes
    ensures !Active(p) ==> r == p
    // trigger: the entry starts now, a rest included
    ensures Active(p) && !p.playing ==> r == p.(startedAt := now, playing := true)
    // still sounding: nothing changes
    ensures Active(p) && p.playing && Since(now, p.startedAt) < Threshold(p) ==> r == p
    // expiry: move past the entry, wrapping or finishing at the end
    ensures Active(p) && p.playing && Since(now, p.startedAt) >= Threshold(p) ==>
              && !r.playing && r.startedAt == p.startedAt
              && (p.index + 1 < p.len ==> r.index == p.index + 1 && !r.done)
              && (p.index + 1 >= p.len && p.looping ==> r.index == 0 && !r.done)
              && (p.index + 1 >= p.len && !p.looping ==> r.index == p.index + 1 && r.done)
    // a looping song never finishes
    ensures p.looping && !p.done ==> !r.done
  {
    if !Active(p) then
      p
    else if !p.playing then
      p.(startedAt := now, playing := true)
    else if Since(now, p.startedAt) >= Threshold(p) then
      var next := p.index + 1;
      if next >= p.len then
        if p.looping then p.(index := 0, playing := false)
        else p.(index := next, playing := false, done := true)
      else
        p.(index := next, playing := false)
    else
      p
  }

  /** What one tick writes to the synthesizer: only a trigger of an entry that is not a
      rest writes anything, and then its frequency and the song player's envelope. */
  function TickEvents(p: PlayerState, now: Millis): (events: seq<SynthEvent>)
    requires Inv(p)
    ensures events != [] <==> Active(p) && !p.playing && CurrentNote(p).freq != Rest
    ensures events != [] ==>
              events == [SetFreq(CurrentNote(p).freq), SetEnv(TickEnvelope(CurrentNote(p).duration)), StartEnv]
  {
    if Active(p) && !p.playing && CurrentNote(p).freq != Rest then
      [SetFreq(CurrentNote(p).freq), SetEnv(TickEnvelope(CurrentNote(p).duration)), StartEnv]
    else
      []
  }

  /** Ticks at the given times, in order. */
  function Run(p: PlayerState, times: seq<Millis>): (r: PlayerState)
    requires Inv(p)
    ensures Inv(r)
    ensures r.song == p.song && r.len == p.len && r.looping == p.looping
    decreases |times|
  {
    if times == [] then p else Run(Step(p, times[0]), times[1..])
  }

  lemma {:induction false} RunAppend(p: PlayerState, a: seq<Millis>, b: seq<Millis>)
    requires Inv(p)
    ensures Run(p, a + b) == Run(Run(p, a), b)
    decreases |a|
  {
    if a == [] {
      assert a + b == b;
    } else {
      assert (a + b)[0] == a[0] && (a + b)[1..] == a[1..] + b;
      RunAppend(Step(p, a[0]), a[1..], b);
    }
  }

  /** Before any song is started, a tick is a no-op and writes nothing. */
  lemma IdleTickIsNoOp(now: Millis)
    ensures Inv(Idle) && Step(Idle, now) == Idle && TickEvents(Idle, now) == []
  {
  }

  /** However many ticks come, a looping song that has started never finishes. */
  lemma {:induction false} LoopingNeverFinishes(p: PlayerState, times: seq<Millis>)
    requires Inv(p) && p.looping && !p.done
    ensures !Run(p, times).done
    decreases |times|
  {
    if times != [] {
      LoopingNeverFinishes(Step(p, times[0]), times[1..]);
    }
  }

  /** Ticks that come before the sounding entry's duration has elapsed change nothing. */
  lemma {:induction false} EarlyTicksChangeNothing(p: PlayerState, times: seq<Millis>)
    requires Inv(p) && Active(p) && p.playing
    requires forall k :: 0 <= k < |times| ==> Since(times[k], p.startedAt) < Threshold(p)
    ensures Run(p, times) == p
    decreases |times|
  {
    if times != [] {
      assert Step(p, times[0]) == p;
      EarlyTicksChangeNothing(p, times[1..]);
    }
  }

  /** Each entry takes one trigger tick and, its duration later, one expiry tick: after
      the pair the player is waiting to trigger the next entry, or has wrapped or finished. */
  lemma NoteTakesTwoTicks(p: PlayerState, t: Millis)
    requires Inv(p) && Active(p) && !p.playing
    ensures var q := Run(p, [t, Later(t, Threshold(p))]);
      && !q.playing && q.startedAt == t
      && (p.index + 1 < p.len ==> q.index == p.index + 1 && !q.done)
      && (p.index + 1 >= p.len && p.looping ==> q.index == 0 && !q.done)
      && (p.index + 1 >= p.len && !p.looping ==> q.done)
  {
    var t' := Later(t, Threshold(p));
    var p1 := Step(p, t);
    SinceLater(t, Threshold(p));
    assert Since(t', p1.startedAt) >= Threshold(p1);
    assert [t, t'][1..] == [t'] && [t'][1..] == [];
    assert Run(p, [t, t']) == Run(Step(p1, t'), []);
  }

  /** Trigger and expiry times for the entries from `first` up to `stop`, each expiry
      exactly one entry's duration after its trigger, and the next trigger at that expiry. */
  function Schedule(song: seq<Note>, first: int, stop: int, t: Millis): seq<Millis>
    requires 0 <= first && stop <= |song|
    decreases stop - first
  {
    if first >= stop then []
    else
      var t' := Later(t, AsUnsigned(song[first].duration));
      [t, t'] + Schedule(song, first + 1, stop, t')
  }

  /** A song that does not loop finishes once every remaining entry has had its
      trigger tick and its expiry tick. */
  lemma {:induction false} NonLoopingSongFinishes(p: PlayerState, t: Millis)
    requires Inv(p) && Active(p) && !p.playing && !p.looping
    ensures Run(p, Schedule(p.song.value, p.index, p.len, t)).done
    decreases p.len - p.index
  {
    var song := p.song.value;
    var t' := Later(t, Threshold(p));
    var rest := Schedule(song, p.index + 1, p.len, t');
    assert Schedule(song, p.index, p.len, t) == [t, t'] + rest;
    RunAppend(p, [t, t'], rest);
    NoteTakesTwoTicks(p, t);
    var q := Run(p, [t, t']);
    if p.index + 1 < p.len {
      NonLoopingSongFinishes(q, t');
    } else {
      assert rest == [];
    }
  }

  /** `count` ticks 10 ms apart, the first at `start`. */
  function Ticks(start: nat, count: nat): (times: seq<Millis>)
    requires start + 10 * count < ClockModulus
    ensures |times| == count
    ensures forall k :: 0 <= k < count ==> times[k] == start + 10 * k
  {
    seq(count, k requires 0 <= k < count => (start + 10 * k) as Millis)
  }

  /** Ticking every 10 ms for `m + n` ticks is ticking `m` times, then `n` times more. */
  lemma RunTicks(p: PlayerState, start: nat, m: nat, n: nat)
    requires Inv(p) && start + 10 * (m + n) < ClockModulus
    ensures Run(p, Ticks(start, m + n)) == Run(Run(p, Ticks(start, m)), Ticks(start + 10 * m, n))
  {
    var whole, front, back := Ticks(start, m + n), Ticks(start, m), Ticks(start + 10 * m, n);
    assert whole == front + back;
    RunAppend(p, front, back);
  }

  lemma RunOneTick(p: PlayerState, t: nat)
    requires Inv(p) && t + 10 < ClockModulus
    ensures Run(p, Ticks(t, 1)) == Step(p, t)
  {
    assert Ticks(t, 1) == [t];
  }

  /** An entry triggered at `t` holds through the next `n` ticks when they all come
      before its duration has elapsed. */
  lemma HoldEntry(q: PlayerState, t: nat, n: nat)
    requires Inv(q) && Active(q) && !q.playing
    requires t + 10 * (n + 1) < ClockModulus && 10 * n < Threshold(q)
    ensures Run(q, Ticks(t, n + 1)) == q.(startedAt := t, playing := true)
  {
    var q1 := q.(startedAt := t, playing := true);
    RunOneTick(q, t);
    var early := Ticks(t + 10, n);
    forall k | 0 <= k < |early| ensures Since(early[k], q1.startedAt) < Threshold(q1) {
      assert early[k] == t + 10 + 10 * k;
    }
    EarlyTicksChangeNothing(q1, early);
    RunTicks(q, t, 1, n);
  }

  /** An entry triggered at `t` whose duration elapses at the `n + 1`-th tick after it:
      that tick is its expiry. */
  lemma PlayEntry(q: PlayerState, t: nat, n: nat)
    requires Inv(q) && Active(q) && !q.playing
    requires t + 10 * (n + 2) < ClockModulus && 10 * n < Threshold(q) <= 10 * (n + 1)
    ensures Run(q, Ticks(t, n + 2)) == Step(q.(startedAt := t, playing := true), t + 10 * (n + 1))
  {
    var q1 := q.(startedAt := t, playing := true);
    HoldEntry(q, t, n);
    RunOneTick(q1, t + 10 * (n + 1));
    RunTicks(q, t, n + 1, 1);
  }

  /** A note of 100 ms, a rest of 50 ms and a note of 100 ms, played once with a tick
      every 10 ms from time 0: the tick that sees an entry expire does not trigger the
      next one, so each later entry starts one tick late (the rest at 110 ms, the last
      note at 170 ms) and the song is done at the tick of 270 ms, not before. */
  lemma ThreeNoteTimeline()
    ensures var p := StartSong(Idle, Some([Note(440, 100), Note(Rest, 50), Note(523, 100)]), 3, false);
      && TickEvents(p, 0) == [SetFreq(440), SetEnv(TickEnvelope(100)), StartEnv]
      && Run(p, Ticks(0, 11)).index == 1
      && TickEvents(Run(p, Ticks(0, 11)), 110) == []
      && Run(p, Ticks(0, 17)).index == 2
      && !Run(p, Ticks(0, 27)).done
      && Run(p, Ticks(0, 28)).done
  {
    var p := StartSong(Idle, Some([Note(440, 100), Note(Rest, 50), Note(523, 100)]), 3, false);
    // the first note sounds from 0 until the tick at 100
    var q2 := p.(index := 1, startedAt := 0);
    PlayEntry(p, 0, 9);
    assert Run(p, Ticks(0, 11)) == q2;
    // the rest sounds from 110 until the tick at 160
    var q4 := p.(index := 2, startedAt := 110);
    PlayEntry(q2, 110, 4);
    RunTicks(p, 0, 11, 6);
    assert Run(p, Ticks(0, 17)) == q4;
    // the last note sounds from 170 until the tick at 270
    HoldEntry(q4, 170, 9);
    RunTicks(p, 0, 17, 10);
    PlayEntry(q4, 170, 9);
    RunTicks(p, 0, 17, 11);
  }

  /** The player's state as the source keeps it: a pointer to the bound table (null
      when none is bound), its claimed length, and the scalars the tick routine updates. */
  class SongPlayer {
    var song: array?<Note>
    var songLen: int
    var index: int
    var startedAt: Millis
    var playing: bool
    var done: bool
    var looping: bool

    function State(): PlayerState
      reads this, song
    {
      PlayerState(if song == null then None else Some(song[..]), songLen, index,
                  startedAt, playing, done, looping)
    }

    ghost predicate Valid()
      reads this, song
    {
      Inv(State())
    }

    /** The initial values of the file-scope variables. */
    constructor ()
      ensures Valid() && State() == Idle
    {
      song, songLen, index, startedAt := null, 0, 0, 0;
      playing, done, looping := false, true, false;
    }

    /** Binds `table` (its first `len` entries) and rewinds; callers pass the table's
        own length. */
    method Start(table: array?<Note>, len: int, loop: bool)
      requires table != null ==> len <= table.Length
      modifies this
      ensures Valid() && song == table
      ensures State() == StartSong(old(State()), if table == null then None else Some(table[..]), len, loop)
    {
      song := table;
      songLen := len;
      index := 0;
      playing := false;
      done := false;
      looping := loop;
    }

    /** One call of the tick routine at time `now`; returns what it writes to the synthesizer. */
    method Tick(now: Millis) returns (events: seq<SynthEvent>)
      requires Valid()
      modifies this
      ensures Valid() && song == old(song)
      ensures State() == Step(old(State()), now)
      ensures events == TickEvents(old(State()), now)
    {
      events := [];
      if done || song == null || songLen <= 0 {
        return;
      }
      if !playing {
        var entry := song[index];
        if entry.freq != Rest {
          events := [SetFreq(entry.freq), SetEnv(TickEnvelope(entry.duration)), StartEnv];
        }
        startedAt := now;
        playing := true;
      } else {
        var entry := song[index];
        if Since(now, startedAt) >= AsUnsigned(entry.duration) {
          index := index + 1;
          playing := false;
          if index >= songLen {
            if looping {
              index := 0;
            } else {
              done := true;
            }
          }
        }
      }
    }

    function IsSongDone(): (d: bool)
      reads this
      ensures d <==> done
    {
      done
    }
  }
}
