/** The game rules of the main program: goals and scoring, the kickoff layout,
    the PS/2 keyboard decoder, the per-frame controls, the goalpost bitmaps and
    the end-of-match decision. The keyboard FIFO arrives as a sequence of bytes;
    sprite and sprite-RAM writes are returned as traces. */
module Soccer {
  import opened Common
  import opened Notes
  import opened Songs
  import opened Synth
  import opened Physics

  /** Length of a match in seconds. */
  const MatchDurationSec: int := 10
  const GoalpostW: int := 8
  const GoalpostH: int := 80
  /** The ground line, 40 px above the bottom of the screen. */
  const InvisibleLineY: int := ScreenH - 40
  /** Vertical velocity of a jump (upwards is negative). */
  const JumpVelocity: real := -10.0 * 0.75

  const LeftPostX: int := 10
  const RightPostX: int := ScreenW - 10 - GoalpostW
  /** The goal mouths: the inner edges of the two posts. */
  const PostInnerLeft: int := LeftPostX + GoalpostW
  const PostInnerRight: int := RightPostX

  lemma FieldLayout()
    ensures InvisibleLineY == 440 && JumpVelocity == -7.5
    ensures PostInnerLeft == 18 && PostInnerRight == 622
    ensures InvisibleLineY - PlayerH == PlayerGroundY && InvisibleLineY - BallH == BallGroundY
  {
  }

  // ------------------------------------------------------------------ goals

  datatype Goal = NoGoal | LeftGoal | RightGoal

  /** Which goal, if any, a ball at `ballX` is in: the left one once its right edge is past
      the left post's inner edge, the right one once its left edge is past the right's. */
  function GoalAt(ballX: int): (g: Goal)
    ensures g == LeftGoal <==> ballX + BallW < PostInnerLeft
    ensures g == RightGoal <==> ballX > PostInnerRight
    ensures g == NoGoal <==> PostInnerLeft - BallW <= ballX <= PostInnerRight
  {
    if ballX + BallW < PostInnerLeft then LeftGoal
    else if ballX > PostInnerRight then RightGoal
    else NoGoal
  }

  /** The goal mouths are two pixels wide at the left wall and two at the right: a ball
      pressed against either wall is always in that goal. */
  lemma GoalEdges()
    ensures GoalAt(1) == LeftGoal && GoalAt(2) == NoGoal
    ensures GoalAt(622) == NoGoal && GoalAt(623) == RightGoal
    ensures GoalAt(0) == LeftGoal && GoalAt(ScreenW - BallW) == RightGoal
  {
  }

  /** Where a kickoff puts everything: the ball in the middle, on the ground line or
      dropping from mid-screen, and both players on the ground line 50 px in from the sides. */
  function Kickoff(ballOnGround: bool): (s: Scene)
    ensures s.p1X == 50 && s.p2X == ScreenW - 50 - PlayerW
    ensures s.p1.y == PlayerGroundY && s.p2.y == PlayerGroundY && s.p1.vy == 0.0 && s.p2.vy == 0.0
    ensures s.p1.onGround == ballOnGround && s.p2.onGround == ballOnGround
    ensures Grounded(s.p1) && Grounded(s.p2)
    ensures s.ball.x == ScreenW / 2 - BallW / 2 && s.ball.vx == 0.0
    ensures ballOnGround ==> s.ball.y == BallGroundY && s.ball.vy == 0.0
    ensures !ballOnGround ==> s.ball.y == ScreenH / 2 - BallH / 2 && s.ball.vy == 5.0
    // nobody is in a goal and nobody touches the ball
    ensures GoalAt(s.ball.x) == NoGoal
    ensures !Overlaps(CentreDx(s.p1X, s.ball.x), CentreDy(s.p1.y, s.ball.y))
    ensures !Overlaps(CentreDx(s.p2X, s.ball.x), CentreDy(s.p2.y, s.ball.y))
  {
    var ballY := if ballOnGround then InvisibleLineY - BallH else ScreenH / 2 - BallH / 2;
    var ballVy := if ballOnGround then 0.0 else 5.0;
    var ground := InvisibleLineY - PlayerH;
    Scene(50, Body(ground, 0.0, ballOnGround),
          ScreenW - 50 - PlayerW, Body(ground, 0.0, ballOnGround),
          Ball(ScreenW / 2 - BallW / 2, ballY, 0.0, ballVy))
  }

  /** A kickoff with the ball on the ground is at rest: a frame of physics changes nothing. */
  lemma GroundKickoffIsAtRest()
    ensures var s := Kickoff(true);
      Fall(s.p1) == s.p1 && Fall(s.p2) == s.p2 && BallStep(s.ball) == s.ball
  {
    var s := Kickoff(true);
    RestingPlayerStays(s.p1);
    BallAtRestStays(s.ball.x);
  }

  /** What a goal plays: the fanfare, then a one-second pause while the message stays
      on screen. */
  function GoalCelebration(): (events: seq<SynthEvent>)
    ensures |events| == |GoalTune()| + 1
    ensures events[..|GoalTune()|] == GoalTune() && events[|events| - 1] == Sleep(1000)
  {
    GoalTune() + [Sleep(1000)]
  }

  /** A goal holds the game for 1.8 s: 800 ms of fanfare and the 1000 ms pause. */
  lemma GoalCelebrationTiming()
    ensures SleepTotal(GoalCelebration()) == 1800
  {
    GoalTuneTiming();
    SleepTotalAppend(GoalTune(), [Sleep(1000)]);
    assert [Sleep(1000)][1..] == [];
  }

  // ---------------------------------------------------------------- keyboard

  type Byte = b: int | 0 <= b < 256

  /** Entries in the key table. */
  const KeyCount: int := 128
  /** Scan-code bytes that announce a key release, and an extended key. */
  const BreakPrefix: Byte := 0xF0
  const ExtendedPrefix: Byte := 0xE0

  // Keys the game reads (PS/2 scan code set 2).
  const KeyA: int := 0x1C
  const KeyD: int := 0x23
  const KeyW: int := 0x1D
  const KeyLeft: int := 0x6B
  const KeyRight: int := 0x74
  const KeyUp: int := 0x75
  const KeySpace: int := 0x29
  const KeyP: int := 0x4D

  /** The key table and the decoder's pending-release flag. */
  datatype Ps2 = Ps2(keys: seq<bool>, breakCode: bool)

  /** The key table with the entry for `code` set to `pressed`; a code past the end of the
      table leaves it as it is. */
  function SetKey(keys: seq<bool>, code: int, pressed: bool): (r: seq<bool>)
    ensures |r| == |keys|
    ensures forall k :: 0 <= k < |keys| ==> r[k] == (if k == code then pressed else keys[k])
  {
    if 0 <= code < |keys| then keys[code := pressed] else keys
  }

  /** One byte through the decoder, with the table write guarded by the table's bounds:
      the release prefix arms the flag; any other byte marks its key released if the flag
      was armed (and disarms it), pressed otherwise. */
  function Ps2Step(s: Ps2, code: Byte): (r: Ps2)
    ensures |r.keys| == |s.keys|
    ensures code == BreakPrefix ==> r.breakCode && r.keys == s.keys
    ensures code != BreakPrefix ==> !r.breakCode
    ensures code != BreakPrefix && code < |s.keys| ==> r.keys[code] == !s.breakCode
    // only the entry the byte names can change
    ensures forall k :: 0 <= k < |s.keys| && k != code ==> r.keys[k] == s.keys[k]
  {
    if code == BreakPrefix then s.(breakCode := true)
    else if s.breakCode then Ps2(SetKey(s.keys, code, false), false)
    else s.(keys := SetKey(s.keys, code, true))
  }

  /** The decoder run over the bytes in order. */
  function Ps2Run(s: Ps2, codes: seq<Byte>): (r: Ps2)
    ensures |r.keys| == |s.keys|
    ensures forall k :: 0 <= k < |s.keys| && k !in codes ==> r.keys[k] == s.keys[k]
    ensures codes != [] ==> (r.breakCode <==> codes[|codes| - 1] == BreakPrefix)
    decreases |codes|
  {
    if codes == [] then s
    else
      var front := codes[..|codes| - 1];
      assert forall k :: k in front ==> k in codes;
      Ps2Step(Ps2Run(s, front), codes[|codes| - 1])
  }

  /** The decoder as the source writes it: a byte at or past 128 other than the release
      prefix is written to the 128-entry table out of bounds, which is undefined; `None`
      marks that. */
  function Ps2StepAsWritten(s: Ps2, code: Byte): (r: Option<Ps2>)
    ensures r.None? <==> code != BreakPrefix && code >= |s.keys|
    ensures r.Some? ==> r.value == Ps2Step(s, code)
  {
    if code == BreakPrefix then Some(s.(breakCode := true))
    else if code >= |s.keys| then None
    else if s.breakCode then Some(Ps2(s.keys[code := false], false))
    else Some(s.(keys := s.keys[code := true]))
  }

  /** The source's decoder over the bytes in order; once a byte is written out of bounds
      the rest of the run is undefined too. Where it is defined it is the guarded decoder,
      and it is undefined only because some byte overflows the table. */
  function Ps2RunAsWritten(s: Ps2, codes: seq<Byte>): (r: Option<Ps2>)
    ensures r.Some? ==> r.value == Ps2Run(s, codes)
    ensures r.None? ==> exists k :: 0 <= k < |codes| && codes[k] != BreakPrefix && codes[k] >= |s.keys|
    decreases |codes|
  {
    if codes == [] then Some(s)
    else
      var front := codes[..|codes| - 1];
      var last := |codes| - 1;
      assert forall k :: 0 <= k < |front| ==> front[k] == codes[k];
      match Ps2RunAsWritten(s, front)
      case None => None
      case Some(t) => assert codes[last] != BreakPrefix && codes[last] >= |t.keys| ==>
                              codes[last] != BreakPrefix && codes[last] >= |s.keys|;
                      Ps2StepAsWritten(t, codes[last])
  }

  /** Bytes the 128-entry table can take as they are. */
  predicate InTableRange(codes: seq<Byte>) {
    forall k :: 0 <= k < |codes| ==> codes[k] == BreakPrefix || codes[k] < KeyCount
  }

  /** On bytes the table can take, the source's decoder and the guarded one agree. */
  lemma {:induction false} AsWrittenAgrees(s: Ps2, codes: seq<Byte>)
    requires |s.keys| == KeyCount && InTableRange(codes)
    ensures Ps2RunAsWritten(s, codes) == Some(Ps2Run(s, codes))
    decreases |codes|
  {
    if codes != [] {
      var front := codes[..|codes| - 1];
      assert InTableRange(front) by {
        forall k | 0 <= k < |front| ensures front[k] == BreakPrefix || front[k] < KeyCount {
          assert front[k] == codes[k];
        }
      }
      AsWrittenAgrees(s, front);
    }
  }

  /** Player 2's up arrow is an extended key: the keyboard sends the 0xE0 prefix first,
      and the source's decoder writes entry 224 of the 128-entry table. */
  lemma ExtendedArrowOverflowsAsWritten(s: Ps2)
    requires |s.keys| == KeyCount
    ensures Ps2StepAsWritten(s, ExtendedPrefix) == None
    ensures Ps2RunAsWritten(s, [ExtendedPrefix, KeyUp]) == None
    ensures Ps2RunAsWritten(s, [ExtendedPrefix, BreakPrefix, KeyUp]) == None
  {
    assert [ExtendedPrefix, KeyUp][..1] == [ExtendedPrefix] && [ExtendedPrefix][..0] == [];
    assert Ps2RunAsWritten(s, [ExtendedPrefix]) == None;
    assert [ExtendedPrefix, BreakPrefix, KeyUp][..2] == [ExtendedPrefix, BreakPrefix];
    assert [ExtendedPrefix, BreakPrefix][..1] == [ExtendedPrefix];
  }

  /** With the guard, the extended prefix is passed over: the arrow's press and release
      sequences mark it pressed and released, and leave no release pending. */
  lemma ExtendedArrowsRegister(s: Ps2)
    requires |s.keys| == KeyCount && !s.breakCode
    ensures Ps2Run(s, [ExtendedPrefix, KeyUp]).keys == s.keys[KeyUp := true]
    ensures Ps2Run(s, [ExtendedPrefix, BreakPrefix, KeyUp]).keys == s.keys[KeyUp := false]
    ensures !Ps2Run(s, [ExtendedPrefix, KeyUp]).breakCode
    ensures !Ps2Run(s, [ExtendedPrefix, BreakPrefix, KeyUp]).breakCode
  {
    ExtendedPrefixPassedOver(s);
    var press, release := [ExtendedPrefix, KeyUp], [ExtendedPrefix, BreakPrefix, KeyUp];
    assert press[..1] == [ExtendedPrefix];
    assert Ps2Run(s, press) == Ps2Step(s, KeyUp);
    assert release[..2] == [ExtendedPrefix, BreakPrefix] && release[..2][..1] == [ExtendedPrefix];
    assert Ps2Run(s, release[..2]) == s.(breakCode := true);
    assert Ps2Run(s, release) == Ps2Step(s.(breakCode := true), KeyUp);
  }

  /** The guarded decoder leaves the table and the flag as they are on the extended prefix. */
  lemma ExtendedPrefixPassedOver(s: Ps2)
    requires |s.keys| == KeyCount && !s.breakCode
    ensures Ps2Run(s, [ExtendedPrefix]) == s
  {
    assert [ExtendedPrefix][..0] == [];
    assert Ps2Step(s, ExtendedPrefix).keys == s.keys;
  }

  /** Pressing a key and releasing it again leaves it released and every other key as it was. */
  lemma PressThenRelease(s: Ps2, code: Byte)
    requires |s.keys| == KeyCount && !s.breakCode && code < KeyCount
    ensures Ps2Run(s, [code, BreakPrefix, code]) == Ps2(s.keys[code := false], false)
  {
    assert [code, BreakPrefix, code][..2] == [code, BreakPrefix];
    assert [code, BreakPrefix][..1] == [code] && [code][..0] == [];
  }

  // ---------------------------------------------------------------- controls

  /** Five pixels left for the left key, five right for the right key. */
  function Walk(x: int, left: bool, right: bool): (r: int)
    ensures left == right ==> r == x
    ensures left && !right ==> r == x - 5
    ensures right && !left ==> r == x + 5
  {
    var x' := if left then x - 5 else x;
    if right then x' + 5 else x'
  }

  /** Keeps a player's x on screen. */
  function ClampX(x: int): (r: int)
    ensures 0 <= r <= ScreenW - PlayerW
    ensures 0 <= x <= ScreenW - PlayerW ==> r == x
    ensures x < 0 ==> r == 0
    ensures x > ScreenW - PlayerW ==> r == ScreenW - PlayerW
  {
    if x < 0 then 0 else if x > ScreenW - PlayerW then ScreenW - PlayerW else x
  }

  /** The jump key launches a player only from the ground. */
  function Jump(b: Body, pressed: bool): (r: Body)
    ensures pressed && b.onGround ==> r == Body(b.y, JumpVelocity, false)
    ensures !(pressed && b.onGround) ==> r == b
    ensures r.onGround ==> b.onGround
    ensures Grounded(b) ==> Grounded(r)
  {
    if pressed && b.onGround then b.(vy := JumpVelocity, onGround := false) else b
  }

  /** A jump from the ground line: the player rises 49 px in 13 frames, no frame of the
      jump is higher than that, and it lands again on the 29th frame. */
  lemma JumpArc()
    ensures var j := Jump(Body(PlayerGroundY, 0.0, true), true);
      && Falls(j, 13) == Body(359, -1.0, false)
      && (forall n: nat :: Falls(j, n).y >= 359)
      && Falls(j, 28) == Body(401, 6.5, false)
      && Falls(j, 29) == Body(PlayerGroundY, 0.0, true)
  {
    var j := Jump(Body(PlayerGroundY, 0.0, true), true);
    var a := Body(359, -1.0, false);
    JumpArcFrom(j, a, Body(401, 6.5, false));
    JumpApex(j, a);
  }

  lemma JumpApex(j: Body, a: Body)
    requires j == Body(PlayerGroundY, JumpVelocity, false) && a == Body(359, -1.0, false)
    requires Falls(j, 13) == a
    ensures forall n: nat :: Falls(j, n).y >= 359
  {
    ClimbIsMonotonic(j, 13);
    forall n: nat ensures Falls(j, n).y >= 359 {
      if n > 13 {
        FallsAppend(j, 13, n - 13);
        NoHigherThanApex(a, n - 13);
      }
    }
  }

  lemma JumpArcFrom(j: Body, a: Body, b: Body)
    requires j == Body(PlayerGroundY, JumpVelocity, false)
    requires a == Body(359, -1.0, false) && b == Body(401, 6.5, false)
    ensures Falls(j, 13) == a && Falls(j, 28) == b
    ensures Falls(j, 29) == Body(PlayerGroundY, 0.0, true)
  {
    JumpRise(j, a);
    JumpFall(a, b);
    FallsAppend(j, 13, 15);
    assert Falls(b, 1) == Body(PlayerGroundY, 0.0, true) by {
      assert Trunc(7.0) == 7;
      assert Falls(b, 1) == Fall(b);
    }
    FallsAppend(j, 28, 1);
  }

  lemma JumpRise(j: Body, a: Body)
    requires j == Body(PlayerGroundY, JumpVelocity, false) && a == Body(359, -1.0, false)
    ensures Falls(j, 13) == a
  {
    var m := Body(379, -5.0, false);
    assert Falls(j, 5) == m by {
      assert Trunc(-7.0) == -7 && Trunc(-6.5) == -6 && Trunc(-6.0) == -6;
      assert Trunc(-5.5) == -5 && Trunc(-5.0) == -5;
      assert Falls(j, 5) == Fall(Fall(Fall(Fall(Fall(j)))));
    }
    assert Falls(m, 8) == a by {
      assert Trunc(-4.5) == -4 && Trunc(-4.0) == -4 && Trunc(-3.5) == -3 && Trunc(-3.0) == -3;
      assert Trunc(-2.5) == -2 && Trunc(-2.0) == -2 && Trunc(-1.5) == -1 && Trunc(-1.0) == -1;
      assert Falls(m, 8) == Fall(Fall(Fall(Fall(Fall(Fall(Fall(Fall(m))))))));
    }
    FallsAppend(j, 5, 8);
  }

  lemma JumpFall(a: Body, b: Body)
    requires a == Body(359, -1.0, false) && b == Body(401, 6.5, false)
    ensures Falls(a, 15) == b
  {
    var m := Body(365, 2.5, false);
    assert Falls(a, 7) == m by {
      assert Trunc(-0.5) == 0 && Trunc(0.0) == 0 && Trunc(0.5) == 0 && Trunc(1.0) == 1;
      assert Trunc(1.5) == 1 && Trunc(2.0) == 2 && Trunc(2.5) == 2;
      assert Falls(a, 7) == Fall(Fall(Fall(Fall(Fall(Fall(Fall(a)))))));
    }
    assert Falls(m, 8) == b by {
      assert Trunc(3.0) == 3 && Trunc(3.5) == 3 && Trunc(4.0) == 4 && Trunc(4.5) == 4;
      assert Trunc(5.0) == 5 && Trunc(5.5) == 5 && Trunc(6.0) == 6 && Trunc(6.5) == 6;
      assert Falls(m, 8) == Fall(Fall(Fall(Fall(Fall(Fall(Fall(Fall(m))))))));
    }
    FallsAppend(a, 7, 8);
  }

  /** A write to a player sprite's control registers. */
  datatype SpriteEvent =
    | Bypass(player: int, value: int)   // the sprite's bypass setting
    | WrCtrl(player: int, value: int)   // the sprite's control register

  /** The kick animation follows the kick key's edges: on the press the sprite is switched
      to its kick frame (control 2), on the release back (control 0), and nothing is
      written while the key stays as it was. */
  function KickEdge(player: int, was: bool, pressed: bool): (events: seq<SpriteEvent>)
    ensures pressed && !was <==> events == [Bypass(player, 0), WrCtrl(player, 2)]
    ensures !pressed && was <==> events == [WrCtrl(player, 0)]
    ensures pressed == was <==> events == []
  {
    if pressed then (if !was then [Bypass(player, 0), WrCtrl(player, 2)] else [])
    else (if was then [WrCtrl(player, 0)] else [])
  }

  /** The control values written by a trace of sprite writes. */
  function CtrlValues(events: seq<SpriteEvent>): seq<int>
    decreases |events|
  {
    if events == [] then []
    else (if events[0].WrCtrl? then [events[0].value] else []) + CtrlValues(events[1..])
  }

  /** The control value one frame writes: 2 on a press, 0 on a release, none otherwise. */
  function EdgeWrite(was: bool, pressed: bool): seq<int> {
    if pressed == was then [] else if pressed then [2] else [0]
  }

  /** `EdgeWrite` is exactly the control value among a frame's sprite writes. */
  lemma EdgeCtrlValues(player: int, was: bool, pressed: bool)
    ensures CtrlValues(KickEdge(player, was, pressed)) == EdgeWrite(was, pressed)
  {
    var e := KickEdge(player, was, pressed);
    if pressed && !was {
      assert e[1..] == [WrCtrl(player, 2)] && e[1..][1..] == [];
      assert CtrlValues(e[1..]) == [2];
    } else if was && !pressed {
      assert e[1..] == [];
    }
  }

  /** The control values a player's sprite receives over frames in which the kick key
      reads `presses`, starting from kick state `was`. */
  function KickWrites(was: bool, presses: seq<bool>): seq<int>
    decreases |presses|
  {
    if presses == [] then []
    else EdgeWrite(was, presses[0]) + KickWrites(presses[0], presses[1..])
  }

  /** Every control value written is 0 or 2; the first write leaves the current state
      and the last one matches the key's final reading. */
  lemma {:induction false} KickWritesEnds(was: bool, presses: seq<bool>)
    ensures var w := KickWrites(was, presses);
      && (forall i :: 0 <= i < |w| ==> w[i] == 0 || w[i] == 2)
      && (w != [] ==> w[0] == (if was then 0 else 2))
      && (w != [] ==> w[|w| - 1] == (if presses[|presses| - 1] then 2 else 0))
    decreases |presses|
  {
    if presses != [] {
      var p := presses[0];
      var head := EdgeWrite(was, p);
      var rest := KickWrites(p, presses[1..]);
      KickWritesEnds(p, presses[1..]);
      assert rest != [] ==> presses[1..][|presses[1..]| - 1] == presses[|presses| - 1];
      if rest == [] && head != [] && |presses| > 1 {
        // the remaining frames wrote nothing, so the key ended as it started: at p
        KickWritesNone(p, presses[1..]);
      }
    }
  }

  /** However the key is pressed and released, the sprite alternates between the kick
      frame and the normal frame: no value is written twice in a row. */
  lemma {:induction false} KickWritesAlternate(was: bool, presses: seq<bool>)
    ensures var w := KickWrites(was, presses);
      forall i :: 0 <= i < |w| - 1 ==> w[i] != w[i + 1]
    decreases |presses|
  {
    if presses != [] {
      var p := presses[0];
      var head := EdgeWrite(was, p);
      var rest := KickWrites(p, presses[1..]);
      KickWritesAlternate(p, presses[1..]);
      KickWritesEnds(p, presses[1..]);
      var w := head + rest;
      forall i | 0 <= i < |w| - 1 ensures w[i] != w[i + 1] {
        if head != [] && i == 0 {
          assert w[1] == rest[0];
        } else if head != [] {
          assert w[i] == rest[i - 1] && w[i + 1] == rest[i];
        } else {
          assert w[i] == rest[i] && w[i + 1] == rest[i + 1];
        }
      }
    }
  }

  /** Frames that write no control value leave the key as it was before them. */
  lemma {:induction false} KickWritesNone(was: bool, presses: seq<bool>)
    requires presses != [] && KickWrites(was, presses) == []
    ensures presses[|presses| - 1] == was
    decreases |presses|
  {
    if |presses| > 1 {
      KickWritesNone(presses[0], presses[1..]);
    }
  }

  // -------------------------------------------------------------- goalposts

  /** A write of one cell of a goalpost's sprite RAM: which post, the address and the colour code. */
  datatype MemWrite = MemWrite(post: int, addr: int, code: int)

  /** Colour code of a goalpost cell: 1 on the one-pixel border, 2 inside. */
  function GoalpostCode(row: int, col: int): (code: int)
    ensures code == 1 || code == 2
    ensures code == 1 <==> row == 0 || row == GoalpostH - 1 || col == 0 || col == GoalpostW - 1
  {
    if row == 0 || row == GoalpostH - 1 || col == 0 || col == GoalpostW - 1 then 1 else 2
  }

  /** Colour code of the cell at a row-major address. */
  function CellCode(addr: int): int {
    GoalpostCode(addr / GoalpostW, addr % GoalpostW)
  }

  /** The goalpost fill as a trace: every address in row-major order, each written to the
      first post and then to the second. */
  predicate IsGoalpostFill(writes: seq<MemWrite>) {
    && |writes| == 2 * GoalpostW * GoalpostH
    && forall i :: 0 <= i < |writes| ==> writes[i] == MemWrite(i % 2 + 1, i / 2, CellCode(i / 2))
  }

  /** Fills both goalposts' sprite RAM, row by row. */
  method LoadGoalposts() returns (writes: seq<MemWrite>)
    ensures IsGoalpostFill(writes)
  {
    writes := [];
    var row := 0;
    while row < GoalpostH
      invariant 0 <= row <= GoalpostH
      invariant |writes| == 2 * GoalpostW * row
      invariant forall i :: 0 <= i < |writes| ==> writes[i] == MemWrite(i % 2 + 1, i / 2, CellCode(i / 2))
    {
      var col := 0;
      while col < GoalpostW
        invariant 0 <= col <= GoalpostW
        invariant |writes| == 2 * (GoalpostW * row + col)
        invariant forall i :: 0 <= i < |writes| ==> writes[i] == MemWrite(i % 2 + 1, i / 2, CellCode(i / 2))
      {
        var code := if row == 0 || row == GoalpostH - 1 || col == 0 || col == GoalpostW - 1 then 1 else 2;
        var addr := row * GoalpostW + col;
        assert code == CellCode(addr);
        writes := writes + [MemWrite(1, addr, code), MemWrite(2, addr, code)];
        col := col + 1;
      }
      row := row + 1;
    }
  }

  /** The fill writes each address of each post exactly once, with that cell's code. */
  lemma GoalpostFillCoversOnce(writes: seq<MemWrite>)
    requires IsGoalpostFill(writes)
    ensures forall i, j ::
              (0 <= i < |writes| && 0 <= j < |writes| &&
               writes[i].post == writes[j].post && writes[i].addr == writes[j].addr) ==> i == j
    ensures forall a :: 0 <= a < GoalpostW * GoalpostH ==>
              MemWrite(1, a, CellCode(a)) in writes && MemWrite(2, a, CellCode(a)) in writes
  {
    forall a | 0 <= a < GoalpostW * GoalpostH
      ensures MemWrite(1, a, CellCode(a)) in writes && MemWrite(2, a, CellCode(a)) in writes
    {
      assert writes[2 * a] == MemWrite(1, a, CellCode(a));
      assert writes[2 * a + 1] == MemWrite(2, a, CellCode(a));
    }
  }

  // ------------------------------------------------------------ end of match

  datatype Outcome = Draw | Won(player: int)

  /** Equal scores are a draw; otherwise the player with more goals has won. */
  function MatchOutcome(p1Score: int, p2Score: int): (o: Outcome)
    ensures o == Draw <==> p1Score == p2Score
    ensures o == Won(1) <==> p1Score > p2Score
    ensures o == Won(2) <==> p2Score > p1Score
  {
    if p1Score == p2Score then Draw else Won(if p1Score > p2Score then 1 else 2)
  }

  /** The match ends on the first frame at least `MatchDurationSec` whole seconds after
      it started. */
  function MatchOver(now: Millis, start: Millis): (over: bool)
    ensures over <==> Since(now, start) >= 1000 * MatchDurationSec
  {
    Since(now, start) / 1000 >= MatchDurationSec
  }

  /** The closing theme: the draw theme on a draw, the victory theme otherwise. */
  function EndTheme(o: Outcome): (theme: seq<Note>)
    ensures o == Draw ==> theme == ZoroTheme
    ensures o != Draw ==> theme == LuffyTheme
  {
    if o == Draw then ZoroTheme else LuffyTheme
  }

  /** Every entry of a theme through the blocking note player with its defaults. */
  function PlayTheme(theme: seq<Note>): (events: seq<SynthEvent>)
    ensures |events| == 4 * |theme|
    ensures forall k :: 0 <= k < |theme| ==>
              events[4 * k..4 * k + 4] == PlayDefaultNote(theme[k].freq, theme[k].duration)
    decreases |theme|
  {
    if theme == [] then []
    else
      var head := PlayDefaultNote(theme[0].freq, theme[0].duration);
      var rest := PlayTheme(theme[1..]);
      assert forall k :: 1 <= k < |theme| ==>
               (head + rest)[4 * k..4 * k + 4] == rest[4 * (k - 1)..4 * (k - 1) + 4];
      head + rest
  }

  function TotalDuration(theme: seq<Note>): int
    decreases |theme|
  {
    if theme == [] then 0 else theme[0].duration + TotalDuration(theme[1..])
  }

  /** Playing a theme blocks for the sum of its entries' durations. */
  lemma {:induction false} ThemeTakesItsDuration(theme: seq<Note>)
    ensures SleepTotal(PlayTheme(theme)) == TotalDuration(theme)
    decreases |theme|
  {
    if theme != [] {
      var head := PlayDefaultNote(theme[0].freq, theme[0].duration);
      SleepTotalAppend(head, PlayTheme(theme[1..]));
      PlayNoteBlocksForDuration(theme[0].freq, theme[0].duration, DefaultAttack, DefaultDecay,
                                DefaultSustain, DefaultRelease, DefaultLevel);
      ThemeTakesItsDuration(theme[1..]);
    }
  }

  // ----------------------------------------------------------------- match

  /** The main program's game state: the physics globals, both scores, the kick flags and
      the keyboard decoder's pending-release flag. */
  class Match {
    const world: World
    var p1Score: int
    var p2Score: int
    var p1Kick: bool
    var p2Kick: bool
    var breakCode: bool

    constructor (w: World)
      ensures world == w && p1Score == 0 && p2Score == 0
      ensures !p1Kick && !p2Kick && !breakCode
    {
      world := w;
      p1Score, p2Score := 0, 0;
      p1Kick, p2Kick := false, false;
      breakCode := false;
    }

    /** Puts the ball and both players in their kickoff places. */
    method ResetPositions(ballOnGround: bool)
      modifies world`ballX, world`ballY, world`ballVx, world`ballVy
      modifies world`p1X, world`p1Y, world`p1Vy, world`p1OnGround
      modifies world`p2X, world`p2Y, world`p2Vy, world`p2OnGround
      ensures world.Snapshot() == Kickoff(ballOnGround)
    {
      world.ballX := ScreenW / 2 - BallW / 2;
      world.ballY := if ballOnGround then InvisibleLineY - BallH else ScreenH / 2 - BallH / 2;
      world.ballVx := 0.0;
      world.ballVy := if ballOnGround then 0.0 else 5.0;
      world.p1X := 50;
      world.p1Y := InvisibleLineY - PlayerH;
      world.p2X := ScreenW - 50 - PlayerW;
      world.p2Y := InvisibleLineY - PlayerH;
      world.p1Vy, world.p2Vy := 0.0, 0.0;
      world.p1OnGround, world.p2OnGround := ballOnGround, ballOnGround;
    }

    /** Scores a goal if the ball is in one: the other side's player gets the point, the
        goal fanfare plays and play restarts with the ball dropping from mid-screen. */
    method DetectGoal() returns (goal: Goal, tune: seq<SynthEvent>)
      modifies this`p1Score, this`p2Score
      modifies world`ballX, world`ballY, world`ballVx, world`ballVy
      modifies world`p1X, world`p1Y, world`p1Vy, world`p1OnGround
      modifies world`p2X, world`p2Y, world`p2Vy, world`p2OnGround
      ensures goal == GoalAt(old(world.ballX))
      ensures goal == NoGoal ==>
                && p1Score == old(p1Score) && p2Score == old(p2Score)
                && world.Snapshot() == old(world.Snapshot()) && tune == []
      ensures goal == LeftGoal ==>
                && p2Score == old(p2Score) + 1 && p1Score == old(p1Score)
                && world.Snapshot() == Kickoff(false) && tune == GoalCelebration()
      ensures goal == RightGoal ==>
                && p1Score == old(p1Score) + 1 && p2Score == old(p2Score)
                && world.Snapshot() == Kickoff(false) && tune == GoalCelebration()
    {
      if world.ballX + BallW < PostInnerLeft {
        p2Score := p2Score + 1;
        tune := GoalCelebration();
        ResetPositions(false);
        return LeftGoal, tune;
      }
      if world.ballX > PostInnerRight {
        p1Score := p1Score + 1;
        tune := GoalCelebration();
        ResetPositions(false);
        return RightGoal, tune;
      }
      return NoGoal, [];
    }

    function Decoder(): Ps2
      reads this, world.keyState
    {
      Ps2(world.keyState[..], breakCode)
    }

    /** Drains the keyboard FIFO, whose bytes this frame are `codes`, into the key table;
        table writes are guarded by the table's bounds. */
    method HandlePs2Input(codes: seq<Byte>)
      requires world.keyState.Length == KeyCount
      modifies world.keyState, this`breakCode
      ensures Decoder() == Ps2Run(old(Decoder()), codes)
    {
      var i := 0;
      while i < |codes|
        invariant 0 <= i <= |codes|
        invariant Decoder() == Ps2Run(old(Decoder()), codes[..i])
      {
        var code := codes[i];
        if code == BreakPrefix {
          breakCode := true;
        } else if breakCode {
          if code < KeyCount {
            world.keyState[code] := false;
          }
          breakCode := false;
        } else {
          if code < KeyCount {
            world.keyState[code] := true;
          }
        }
        assert codes[..i + 1][..i] == codes[..i];
        i := i + 1;
      }
      assert codes[..|codes|] == codes;
    }

    /** One frame of the controls: walking, jumping, the kick flags with their sprite
        writes, and keeping both players on screen. */
    method ProcessControls() returns (sprites: seq<SpriteEvent>)
      requires world.keyState.Length == KeyCount
      modifies world`p1X, world`p1Vy, world`p1OnGround, world`p2X, world`p2Vy, world`p2OnGround
      modifies this`p1Kick, this`p2Kick
      ensures var keys := world.keyState;
        && world.p1X == ClampX(Walk(old(world.p1X), keys[KeyA], keys[KeyD]))
        && world.p2X == ClampX(Walk(old(world.p2X), keys[KeyLeft], keys[KeyRight]))
        && world.P1() == Jump(old(world.P1()), keys[KeyW])
        && world.P2() == Jump(old(world.P2()), keys[KeyUp])
        && p1Kick == keys[KeySpace] && p2Kick == keys[KeyP]
        && sprites == KickEdge(1, old(p1Kick), keys[KeySpace]) + KickEdge(2, old(p2Kick), keys[KeyP])
    {
      var keys := world.keyState;
      MovePlayers(keys[KeyA], keys[KeyD], keys[KeyW], keys[KeyLeft], keys[KeyRight], keys[KeyUp]);
      sprites := ToggleKicks(keys[KeySpace], keys[KeyP]);
      ClampPlayers();
    }

    /** The movement keys: five pixels per walking key, and a jump from the ground. */
    method MovePlayers(left1: bool, right1: bool, up1: bool, left2: bool, right2: bool, up2: bool)
      modifies world`p1X, world`p1Vy, world`p1OnGround, world`p2X, world`p2Vy, world`p2OnGround
      ensures world.p1X == Walk(old(world.p1X), left1, right1)
      ensures world.p2X == Walk(old(world.p2X), left2, right2)
      ensures world.P1() == Jump(old(world.P1()), up1) && world.P2() == Jump(old(world.P2()), up2)
    {
      if left1 { world.p1X := world.p1X - 5; }
      if right1 { world.p1X := world.p1X + 5; }
      if up1 && world.p1OnGround {
        world.p1Vy := JumpVelocity;
        world.p1OnGround := false;
      }

      if left2 { world.p2X := world.p2X - 5; }
      if right2 { world.p2X := world.p2X + 5; }
      if up2 && world.p2OnGround {
        world.p2Vy := JumpVelocity;
        world.p2OnGround := false;
      }
    }

    /** The kick keys: each flag follows its key, and its sprite is switched on the edges. */
    method ToggleKicks(kick1: bool, kick2: bool) returns (sprites: seq<SpriteEvent>)
      modifies this`p1Kick, this`p2Kick
      ensures p1Kick == kick1 && p2Kick == kick2
      ensures sprites == KickEdge(1, old(p1Kick), kick1) + KickEdge(2, old(p2Kick), kick2)
    {
      sprites := [];
      if kick1 {
        if !p1Kick {
          p1Kick := true;
          sprites := sprites + [Bypass(1, 0), WrCtrl(1, 2)];
        }
      } else {
        if p1Kick { sprites := sprites + [WrCtrl(1, 0)]; }
        p1Kick := false;
      }

      if kick2 {
        if !p2Kick {
          p2Kick := true;
          sprites := sprites + [Bypass(2, 0), WrCtrl(2, 2)];
        }
      } else {
        if p2Kick { sprites := sprites + [WrCtrl(2, 0)]; }
        p2Kick := false;
      }
    }

    /** Keeps both players on screen. */
    method ClampPlayers()
      modifies world`p1X, world`p2X
      ensures world.p1X == ClampX(old(world.p1X)) && world.p2X == ClampX(old(world.p2X))
    {
      if world.p1X < 0 { world.p1X := 0; }
      else if world.p1X > ScreenW - PlayerW { world.p1X := ScreenW - PlayerW; }

      if world.p2X < 0 { world.p2X := 0; }
      else if world.p2X > ScreenW - PlayerW { world.p2X := ScreenW - PlayerW; }
    }
  }
}
