# Big Head Soccer: a verified model of the game core

Big Head Soccer is a two-player soccer game for a MicroBlaze soft processor.
The processor drives sprite, sound and keyboard cores through memory-mapped registers.
This project models the software core of the game in Dafny and proves properties of it:

- **Audio** (`notes.dfy`, `songs.dfy`, `synth.dfy`, `sequencer.dfy`):
  - the note, duration and default-envelope constants;
  - the four song tables;
  - the envelope parameters that the blocking note players derive;
  - the non-blocking song player. That player is a `SongPlayer` object whose tick
    routine is proved against a state-machine function `Sequencer.Step`, and the
    lemmas about whole songs are stated over `Step`.
- **Physics** (`physics.dfy`):
  - per-frame gravity and landing for the players;
  - the ball's motion, with its ground bounce, wall bounces and friction;
  - the player-ball contact test;
  - the kick/bounce decision and its shared 200 ms cooldown.

  The global positions and velocities are the fields of a `World` object. Each of its
  methods is proved against a function (`Fall`, `BallStep`, `Collide`).
- **Game rules** (`soccer.dfy`):
  - goal detection and scoring;
  - the kickoff layout;
  - the PS/2 scan-code decoder that fills the key table;
  - the per-frame controls;
  - the goalpost bitmap fill;
  - the end-of-match decision.

  Goal detection, the kickoff reset, the PS/2 decoder and the per-frame controls are
  methods of a `Match` object, each proved against functions of the same module. The
  goalpost fill is a module-level method. The goal and kickoff layout, the decoder step,
  and the end-of-match decision and theme are module functions.

`common.dfy` holds an `Option` type and the target's 32-bit millisecond clock.
`unsigned long` is 32 bits wide on the MicroBlaze, so timestamps are `Millis` values in [0, 2^32).
An elapsed time is the unsigned difference modulo 2^32 (`Since`).

The hardware cores appear only as traces of abstract events, namely set frequency, set envelope,
start envelope and sleep, and sprite control and sprite-RAM writes.
The clock reading, the keyboard bytes, the square root of the contact test and the random kick jitter are all parameters.
Velocities are `float` in the program and `real` here.
Adding a velocity to a whole-pixel position truncates toward zero (`Physics.Trunc`).

A note on the song player's timing: an entry does not start on the tick that sees the previous entry expire.
That tick only clears the playing flag, and the next tick triggers the new entry.
So with a tick every 10 ms, a song of a 100 ms note, a 50 ms rest and a 100 ms note starts the rest at 110 ms and the last note at 170 ms.
It finishes at the tick of 270 ms, not at 250 ms as "each entry lasts exactly its duration" would suggest.
The model follows the code (`Sequencer.ThreeNoteTimeline`).

## Model

| member | source | states |
|---|---|---|
| Common.Since | Software/audio_manager.cpp:79 | elapsed time is the unsigned 32-bit difference: `now - since`, plus 2^32 when the clock has wrapped |
| Common.AsUnsigned | Software/audio_manager.cpp:79 | the `(unsigned long)` cast of a duration: the value itself when in range, plus 2^32 when negative |
| Common.SinceLater | Software/game_physics.cpp:126 | a delay below 2^32 is recovered exactly by the unsigned difference, however the clock has wrapped |
| Notes.ScaleStrictlyIncreasing | Software/audio_manager.h:9-50 | the 39 note constants run from C3 to D6 and strictly increase |
| Notes.NotesAreNotRests | Software/audio_manager.h:9-52 | every note frequency is positive, so none equals the rest sentinel 0 |
| Notes.NotesAreTheScale | Software/audio_manager.h:9-50 | the membership set holds exactly the 39 note constants |
| Notes.DurationsHalve | Software/audio_manager.h:55-59 | each duration constant is twice the next shorter one |
| Songs.MarioIntroWellFormed | Software/audio_manager.cpp:124-136 | the intro has 10 entries, each with positive duration and a rest or scale frequency |
| Songs.LuffyThemeWellFormed | Software/audio_manager.cpp:138-156 | the victory theme has 16 well-formed entries |
| Songs.ZoroThemeWellFormed | Software/audio_manager.cpp:158-168 | the draw theme has 8 well-formed entries |
| Songs.SplashUpperWellFormed | Software/audio_manager.cpp:170-259 | the first 41-entry half of the title theme is well formed |
| Songs.SplashLowerWellFormed | Software/audio_manager.cpp:170-259 | the second 41-entry half of the title theme is well formed |
| Songs.SmashSplashWellFormed | Software/audio_manager.cpp:170-259 | the title theme has 82 well-formed entries |
| Synth.NoteSustain | Software/audio_manager.cpp:19-20 | sustain is never negative; with the -1 sentinel, attack + decay + sustain + release equals the duration whenever sustain > 0, and sustain is 0 exactly when the duration does not exceed attack + decay + release; otherwise it is the given value clamped at 0 |
| Synth.PlayNote | Software/audio_manager.cpp:17-24 | the blocking player sets the frequency, writes the envelope with the derived sustain, starts it and sleeps for the duration |
| Synth.PlayDefaultNote | Software/audio_manager.h:71 | with the defaults (attack 10, decay 10, release 100, level 0.8) a note shorter than 120 ms gets sustain 0 and a longer one duration - 120; it sets the frequency, starts the envelope and blocks for the duration |
| Synth.SmashEnvelope | Software/audio_manager.cpp:31-35 | attack 2, decay 2, release 10, level 0.9, and sustain `max(duration - 14, 0)`; the envelope spans the note exactly when it is at least 14 ms long |
| Synth.SmashNote | Software/audio_manager.cpp:26-38 | a rest only sleeps; the trace reaches the sound hardware exactly when the frequency is not the rest |
| Synth.TickSustain | Software/audio_manager.cpp:69 | the song player's sustain is duration - 30 above 30 ms and 5 otherwise, so always at least 1 |
| Synth.TickEnvelope | Software/audio_manager.cpp:69-71 | attack 5, decay 10, release 20, level 0.8, and the sustain `TickSustain` of the duration (duration - 30, or 5), which is at least 1 |
| Synth.CollisionSound | Software/audio_manager.cpp:98-102 | the collision blip is C4 with attack 5, decay 10, no sustain, release 50 at full level, and it never blocks |
| Synth.KickSound | Software/audio_manager.cpp:104-108 | the kick sound is C5 with attack 5, decay 15, no sustain, release 60 at full level; it never blocks and differs from the collision blip |
| Synth.CountdownBeep | Software/audio_manager.cpp:110-115 | steps below 3 play a 150 ms C5 with sustain 300; later steps a 500 ms G5 with sustain 500 |
| Synth.GoalTune | Software/audio_manager.cpp:117-121 | the fanfare is three blocking notes: C5 for an eighth, E5 for an eighth, then G5 for a quarter |
| Synth.SleepTotalAppend | Software/audio_manager.cpp:23 | blocking time adds up over concatenated traces |
| Synth.PlayNoteBlocksForDuration | Software/audio_manager.cpp:17-24 | a blocking note blocks exactly for its duration |
| Synth.GoalTuneTiming | Software/audio_manager.cpp:117-121 | the fanfare blocks for 800 ms, with sustains 80, 80 and 280 |
| Sequencer.CurrentNote | Software/audio_manager.cpp:64-66 | under the index invariant the current entry is an entry of the bound table, so the read is in bounds |
| Sequencer.StartSong | Software/audio_manager.cpp:49-56 | starting binds the table, length and loop flag and resets the index and flags whatever came before; the index invariant holds after |
| Sequencer.Step | Software/audio_manager.cpp:58-91 | a tick is a no-op when done, unbound or empty; it triggers the current entry (rests included) by recording now; it changes nothing while the entry sounds; at expiry it advances, wrapping to 0 when looping, otherwise finishing with the index one past the last entry; it keeps the index invariant and never finishes a looping song |
| Sequencer.TickEvents | Software/audio_manager.cpp:68-73 | a tick writes to the synthesizer exactly when it triggers an entry that is not a rest, and then the entry's frequency and the song envelope |
| Sequencer.Run | Software/audio_manager.cpp:58-91 | any run of ticks keeps the index invariant and the bound song |
| Sequencer.RunAppend | Software/audio_manager.cpp:58-91 | ticking through two runs of times is ticking through their concatenation |
| Sequencer.IdleTickIsNoOp | Software/audio_manager.cpp:46-60 | a tick before any song is started changes nothing and writes nothing |
| Sequencer.LoopingNeverFinishes | Software/audio_manager.cpp:83-88 | a started looping song is never done, whatever ticks come |
| Sequencer.EarlyTicksChangeNothing | Software/audio_manager.cpp:77-81 | ticks before the sounding entry's duration has elapsed change nothing |
| Sequencer.HoldEntry | Software/audio_manager.cpp:64-81 | with ticks every 10 ms, an entry triggered at `t` stays current, unchanged, through every tick before its duration has elapsed |
| Sequencer.PlayEntry | Software/audio_manager.cpp:64-89 | with ticks every 10 ms, the first tick at or past an entry's duration is its expiry |
| Sequencer.NoteTakesTwoTicks | Software/audio_manager.cpp:64-89 | each entry takes one trigger tick and one expiry tick a duration later, after which the player advanced, wrapped or finished |
| Sequencer.NonLoopingSongFinishes | Software/audio_manager.cpp:83-88 | along the trigger/expiry schedule (each entry triggered at the previous entry's expiry tick, and expired exactly its duration later), a non-looping song is done after the last entry's expiry tick |
| Sequencer.ThreeNoteTimeline | Software/audio_manager.cpp:58-91 | with 10 ms ticks, a 100/50/100 ms song starts its rest at 110 ms without a synthesizer write, its last note at 170 ms, and is done at 270 ms and not at 260 ms |
| Sequencer.SongPlayer.constructor | Software/audio_manager.cpp:41-47 | the initial state: nothing bound, already done |
| Sequencer.SongPlayer.Start | Software/audio_manager.cpp:49-56 | the object's new state is `StartSong` of its old state |
| Sequencer.SongPlayer.Tick | Software/audio_manager.cpp:58-91 | the object's new state is `Step` of its old state and the writes are `TickEvents` |
| Sequencer.SongPlayer.IsSongDone | Software/audio_manager.cpp:93-95 | reports the done flag |
| Physics.Trunc | Software/game_physics.cpp:37-38 | float-to-int conversion truncates toward zero: never past the value, less than 1 short of it |
| Physics.GroundLines | Software/game_physics.cpp:17-19 | the ground lines are 408 for players and 424 for the ball, at the same level |
| Physics.Fall | Software/game_physics.cpp:35-50 | one frame of gravity: below the line vy grew by 0.5 and y moved by its truncation; at or past the line the player is on it, stopped and on the ground; the on-ground flag is otherwise kept |
| Physics.FallKeepsGrounded | Software/game_physics.cpp:41-50 | gravity keeps "on the ground means on the line and still", after which on-ground holds exactly on the line |
| Physics.RestingPlayerStays | Software/game_physics.cpp:35-50 | a player standing on the ground stays put |
| Physics.BallStep | Software/game_physics.cpp:54-76 | after a frame 0 <= x <= 624 and y <= 424; a ground hit flips and damps vy by 0.7, and stops it below speed 1; a wall hit clamps x and flips and damps vx; friction 0.98 follows the walls, so the speed shrinks by at least 2% |
| Physics.BallAtRestStays | Software/game_physics.cpp:54-76 | a ball lying still on the ground line stays there |
| Physics.HorizontalSpeedDecays | Software/game_physics.cpp:66-75 | after n frames the horizontal speed is at most 0.98^n of what it was |
| Physics.NoSidewaysDrift | Software/game_physics.cpp:66-75 | a ball with no horizontal speed never gains any |
| Physics.CentreDx | Software/game_physics.cpp:84-92 | the horizontal offset of the ball centre from the player centre, exactly as the float expression computes it from whole-pixel positions |
| Physics.CentreDy | Software/game_physics.cpp:84-93 | the vertical offset, likewise |
| Physics.Overlaps | Software/game_physics.cpp:89-98 | the overlap test (radius sum 12.8 + 8) holds exactly when dx² + dy² <= 432, so each offset is within 20 px |
| Physics.Normal | Software/game_physics.cpp:100-101 | with a positive distance the normal component times the distance is the offset; with coincident centres it is the fallback (1 horizontally, 0 vertically) |
| Physics.Dir | Software/game_physics.cpp:111 | the direction is +1 or -1 |
| Physics.DirIsSideOfBall | Software/game_physics.cpp:99-111 | the direction is the side of the player the ball is on, +1 when the centres coincide |
| Physics.PushOutReachesContact | Software/game_physics.cpp:99-106 | the push-out moves the ball's centre along the normal until the circles just touch |
| Physics.PushedBall | Software/game_physics.cpp:104-108 | the push-out changes the position only |
| Physics.InnerHit | Software/game_physics.cpp:117-118 | player 1 kicks only a ball level with or right of its centre, player 2 only one level with or left of it; any other player id never has an inner hit |
| Physics.Arbitrate | Software/game_physics.cpp:117-137 | a kick happens exactly when kicking on the inner side; otherwise a bounce exactly when strictly more than 200 ms have passed since the last bounce |
| Physics.CooldownSpacing | Software/game_physics.cpp:126 | a non-kick contact a given time after a bounce bounces again exactly when that gap exceeds 200 ms, even across a clock wrap |
| Physics.Collide | Software/game_physics.cpp:79-139 | apart: nothing changes; touching: the ball is pushed out, then a kick gives (15·dir + jitter, -6) and keeps the last bounce time, a bounce gives (3·dir, -6) at head height or (2·dir, -2.5) below it and records now, and otherwise the velocity is kept; dir is the side the ball is on; an unknown player id never kicks |
| Physics.OneBouncePerFrame | Software/game_physics.cpp:126-136 | after a bounce, a second non-kick contact in the same frame does not bounce |
| Physics.World.constructor | Software/game_physics.cpp:21-27 | the initial positions, velocities and an all-released 128-entry key table |
| Physics.World.ApplyGravityAndGround | Software/game_physics.cpp:33-51 | both players' new vertical state is `Fall` of the old |
| Physics.World.UpdateBallMotion | Software/game_physics.cpp:54-76 | the ball's new state is `BallStep` of the old |
| Physics.World.HandlePlayerBallCollision | Software/game_physics.cpp:79-139 | the new ball, last bounce time and sound are those of `Collide` |
| Soccer.FieldLayout | Software/main_big_head_soccer.cpp:16-25 | ground line 440, jump velocity -7.5, goal mouths at 18 and 622 |
| Soccer.GoalAt | Software/main_big_head_soccer.cpp:337-353 | left goal exactly when the ball's right edge is left of 18, right goal exactly when its left edge is right of 622, none in between inclusive |
| Soccer.GoalEdges | Software/main_big_head_soccer.cpp:337-353 | x = 1 and x = 0 score left, x = 2 and 622 do not, 623 and 624 score right |
| Soccer.Kickoff | Software/main_big_head_soccer.cpp:304-319 | the kickoff places the ball at x 312, on the ground line (424, still) or at 232 dropping at 5; the players stand at 50 and 558 on the line; nobody is in a goal or touches the ball |
| Soccer.GroundKickoffIsAtRest | Software/main_big_head_soccer.cpp:304-319 | a kickoff with the ball on the ground is unchanged by a frame of physics |
| Soccer.Ps2Step | Software/main_big_head_soccer.cpp:362-371 | 0xF0 arms the release flag; any other byte clears it and marks its key released if it was armed, pressed otherwise; only that key's entry changes; a byte past the table writes nothing |
| Soccer.Ps2Run | Software/main_big_head_soccer.cpp:359-372 | keys whose bytes did not arrive are unchanged, and a release is pending exactly when the last byte was 0xF0 |
| Soccer.Ps2StepAsWritten | Software/main_big_head_soccer.cpp:362-371 | the unguarded decoder is undefined exactly on a non-0xF0 byte at or past 128, and agrees with `Ps2Step` elsewhere |
| Soccer.Ps2RunAsWritten | Software/main_big_head_soccer.cpp:359-372 | over a run of bytes the unguarded decoder, where defined, equals the guarded `Ps2Run`, and it is undefined only if some byte other than 0xF0 is at or past the table's end |
| Soccer.AsWrittenAgrees | Software/main_big_head_soccer.cpp:359-372 | on bytes below 128 or 0xF0 the unguarded and guarded decoders agree |
| Soccer.ExtendedArrowOverflowsAsWritten | Software/main_big_head_soccer.cpp:360-370 | the 0xE0 prefix of player 2's arrow keys writes out of the 128-entry table |
| Soccer.ExtendedArrowsRegister | Software/main_big_head_soccer.cpp:362-371 | with the guard, the up arrow's press and release sequences set and clear its entry and leave no release pending |
| Soccer.ExtendedPrefixPassedOver | Software/main_big_head_soccer.cpp:360-370 | with the bound guard, the 0xE0 prefix changes neither the key table nor the pending-release flag |
| Soccer.PressThenRelease | Software/main_big_head_soccer.cpp:362-371 | pressing then releasing a key leaves it released and the others unchanged |
| Soccer.Walk | Software/main_big_head_soccer.cpp:377-378 | each walking key moves 5 px; both together cancel |
| Soccer.ClampX | Software/main_big_head_soccer.cpp:417-421 | a player's x ends in [0, 608], unchanged when already there |
| Soccer.Jump | Software/main_big_head_soccer.cpp:379-382 | a jump happens only from the ground, sets vy -7.5 and leaves the ground; it never lands a player |
| Physics.ClimbIsMonotonic | Software/game_physics.cpp:35-50 | while every frame's velocity is -1 or less, the body climbs every frame, so no frame of the climb is higher than its last |
| Physics.NoHigherThanApex | Software/game_physics.cpp:35-50 | once the velocity is -1 or more, no later frame is higher than the current one |
| Soccer.JumpArc | Software/main_big_head_soccer.cpp:379-382 | a jump from the ground is 49 px up (y 359, vy -1) after 13 frames, no frame is higher than that, it is at y 401 after 28 frames and lands on the 29th |
| Soccer.KickEdge | Software/main_big_head_soccer.cpp:393-402 | control 2 is written exactly on a press edge, control 0 exactly on a release edge, nothing while the key is unchanged |
| Soccer.EdgeCtrlValues | Software/main_big_head_soccer.cpp:393-402 | the control value a frame writes to a kick sprite is 2 on a press edge, 0 on a release edge and none otherwise |
| Soccer.KickWritesEnds | Software/main_big_head_soccer.cpp:393-414 | over any frames every control write is 0 or 2, the first leaves the state the sprite was in and the last matches the key's final reading |
| Soccer.KickWritesAlternate | Software/main_big_head_soccer.cpp:393-414 | over any frames the kick sprite's control writes alternate: no value is written twice in a row |
| Soccer.GoalpostCode | Software/main_big_head_soccer.cpp:140 | code 1 exactly on the border rows and columns, 2 inside |
| Soccer.LoadGoalposts | Software/main_big_head_soccer.cpp:137-146 | writes every address in row-major order to post 1, then post 2, with that cell's code |
| Soccer.GoalpostFillCoversOnce | Software/main_big_head_soccer.cpp:138-145 | every address 0..639 of each post is written exactly once |
| Soccer.MatchOutcome | Software/main_big_head_soccer.cpp:458-462 | a draw exactly on equal scores, otherwise the player with more goals wins |
| Soccer.MatchOver | Software/main_big_head_soccer.cpp:449-451 | the match ends once at least 10 000 ms have passed since it started |
| Soccer.EndTheme | Software/main_big_head_soccer.cpp:469-470 | a draw plays the draw theme, any win the victory theme |
| Soccer.PlayTheme | Software/main_big_head_soccer.cpp:473-480 | entry k of the theme is played as the k-th block of four events, the default note `PlayDefaultNote` of its frequency and duration |
| Soccer.ThemeTakesItsDuration | Software/main_big_head_soccer.cpp:473-480 | playing a theme blocks for the sum of its durations |
| Soccer.Match.constructor | Software/main_big_head_soccer.cpp:51-54 | scores 0, kick flags clear, no release pending |
| Soccer.Match.ResetPositions | Software/main_big_head_soccer.cpp:304-319 | the scene becomes `Kickoff` |
| Soccer.GoalCelebration | Software/main_big_head_soccer.cpp:326-335 | a goal plays the fanfare and then pauses 1000 ms |
| Soccer.GoalCelebrationTiming | Software/main_big_head_soccer.cpp:326-335 | a goal holds the game for 1800 ms: 800 ms of fanfare and the 1000 ms pause |
| Soccer.Match.DetectGoal | Software/main_big_head_soccer.cpp:321-354 | a left goal gives player 2 one point, a right goal player 1, and either plays `GoalCelebration` (fanfare and 1 s pause) and restarts with the ball dropping; with no goal nothing changes |
| Soccer.Match.HandlePs2Input | Software/main_big_head_soccer.cpp:356-373 | the key table and release flag become `Ps2Run` of the old ones over the bytes received |
| Soccer.Match.ProcessControls | Software/main_big_head_soccer.cpp:375-422 | each x is `ClampX` of `Walk`; each vertical state is `Jump`; each kick flag equals its key; the sprite writes are the two `KickEdge`s |
| Soccer.Match.MovePlayers | Software/main_big_head_soccer.cpp:377-390 | walking and jumping for both players |
| Soccer.Match.ToggleKicks | Software/main_big_head_soccer.cpp:393-414 | the kick flags follow the keys, with the edge writes |
| Soccer.Match.ClampPlayers | Software/main_big_head_soccer.cpp:417-421 | both x values are clamped to the screen |

## Left out

- The hardware cores (DDFS synthesizer, ADSR envelope, sprites, OSD, PS/2 port, LEDs, switches, seven-segment display) are modelled only as traces of the calls made to them. Their behaviour is not part of this model.
- Blocking waits (`sleep_ms`, and the busy-wait on the envelope generator becoming idle) appear as `Sleep` and `AwaitIdle` events. The frame pacing sleep is not modelled.
- OSD text, menus, the splash and countdown screens, the score and `MM:SS` timer text, and the game-over flashing loop are display output.
- The per-frame order of `game_loop` is not composed into one method. Its pieces are modelled one by one. The time-out test and the winner decision are modelled (`MatchOver`, `MatchOutcome`).
- `update_sprite_positions` and the sprite writes inside `detect_goal` are sprite-core output.
- Physics.BallStep, Physics.HorizontalSpeedDecays: velocities are reals, and the constants 0.5, 0.7 and 0.98 are exact. The program's `float` constants are the nearest binary values (`0.98f` is about 0.98000002), and every float operation rounds. So the bound of 0.98^n per frame holds for the model, not bit for bit for the program.
- Physics.Collide: the square root is a parameter `dist` with `dist >= 0` and `dist² = dx² + dy²`. The push-out is then computed exactly on reals. IEEE `float` rounding of the push-out, and of 12.8f, is not modelled. The overlap test is insensitive to that rounding, because dx² + dy² is a whole number and 432 < 20.8² < 433.
- Physics.Collide: `rand() % 3 - 1` is a parameter `jitter` in {-1, 0, 1}.
- `play_note`'s `double` frequency is an `int`. Every caller passes a whole-number note constant.
- `init_audio` stores the two core pointers and does nothing else.
- Software/syscalls.c is a stub clock returning zero. Software/game_physics.h holds declarations only, including `GROUND_Y`, which is never defined.
- The goalpost sprites are created with 512 words of sprite RAM, yet the fill writes addresses up to 639. The sprite core's addressing is not part of this model, so whether this overruns is not decided here.
- Goal detection ignores the ball's height: `GoalEdges` shows that a ball against either side wall scores at any height. This is modelled as written.

## Findings

| source | as written | input that shows it | evidently intended | confidence | as-written member | corrected member |
|---|---|---|---|---|---|---|
| Software/main_big_head_soccer.cpp:360-370 | `key_state[code]` is written for every received byte other than 0xF0, but `key_state` has 128 entries (Software/game_physics.cpp:27) | the bytes 0xE0, 0x75 that player 2's up arrow sends: 0xE0 = 224 is written out of bounds | write the table only for codes below 128, passing over the extended prefix | not executed | Soccer.Ps2StepAsWritten, shown by Soccer.ExtendedArrowOverflowsAsWritten | Soccer.Ps2Step, with Soccer.ExtendedArrowsRegister and Soccer.PressThenRelease; Soccer.Match.HandlePs2Input uses it |
