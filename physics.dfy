/** Per-frame physics over the game's global positions and velocities.
    Positions are whole pixels, velocities `float` in the source and `real`
    here; adding a velocity to a position truncates toward zero. The square
    root of the contact test is passed in as `dist`, and the random kick
    jitter as `jitter`. */
module Physics {
  import opened Common
  import opened Synth

  const ScreenW: int := 640
  const ScreenH: int := 480
  const PlayerW: int := 32
  const PlayerH: int := 32
  const BallW: int := 16
  const BallH: int := 16

  /** Downward pull added to a vertical velocity every frame. */
  const Gravity: real := 0.5
  /** Share of the speed kept, with its sign flipped, on a bounce. */
  const BounceDamping: real := 0.7
  /** Share of the horizontal speed the ball keeps every frame. */
  const Friction: real := 0.98

  /** The ground line sits this far above the bottom of the screen. */
  const GroundOffset: int := 40
  const PlayerGroundY: int := ScreenH - GroundOffset - PlayerH
  const BallGroundY: int := ScreenH - GroundOffset - BallH

  /** Conversion of a float to `int`: truncation toward zero. */
  function Trunc(r: real): (t: int)
    ensures r >= 0.0 ==> 0 <= t && t as real <= r < t as real + 1.0
    ensures r < 0.0 ==> t <= 0 && t as real - 1.0 < r <= t as real
  {
    if r >= 0.0 then r.Floor else -((-r).Floor)
  }

  lemma GroundLines()
    ensures PlayerGroundY == 408 && BallGroundY == 424
    ensures BallGroundY == PlayerGroundY + PlayerH - BallH
  {
  }

  // ---------------------------------------------------------------- players

  /** A player's vertical state. */
  datatype Body = Body(y: int, vy: real, onGround: bool)

  /** Standing on the ground line means resting there: a body marked on the ground is on
      the line and not moving. */
  predicate Grounded(b: Body) {
    b.onGround ==> b.y == PlayerGroundY && b.vy == 0.0
  }

  /** One frame of gravity for one player: the velocity grows by `Gravity`, the height
      moves by the truncated velocity, and reaching the ground line lands the player. */
  function Fall(b: Body): (r: Body)
    ensures r.y <= PlayerGroundY
    ensures r.y == PlayerGroundY <==> b.y + Trunc(b.vy + Gravity) >= PlayerGroundY
    ensures r.y == PlayerGroundY ==> r.vy == 0.0 && r.onGround
    ensures r.y < PlayerGroundY ==> r.y == b.y + Trunc(b.vy + Gravity) && r.vy == b.vy + Gravity
    ensures r.onGround <==> b.onGround || r.y == PlayerGroundY
  {
    var vy := b.vy + Gravity;
    var y := b.y + Trunc(vy);
    if y >= PlayerGroundY then Body(PlayerGroundY, 0.0, true) else Body(y, vy, b.onGround)
  }

  /** A frame of gravity keeps the grounded invariant, and then a body is on the ground
      exactly when it is on the ground line. */
  lemma FallKeepsGrounded(b: Body)
    requires Grounded(b)
    ensures Grounded(Fall(b))
    ensures Fall(b).onGround <==> Fall(b).y == PlayerGroundY
  {
  }

  /** A player standing on the ground stays there, frame after frame. */
  lemma RestingPlayerStays(b: Body)
    requires b.onGround && Grounded(b)
    ensures Fall(b) == b
  {
    assert Trunc(0.5) == 0;
  }

  /** `n` frames of gravity. */
  function Falls(b: Body, n: nat): (r: Body)
    ensures n > 0 ==> r.y <= PlayerGroundY
    decreases n
  {
    if n == 0 then b else Falls(Fall(b), n - 1)
  }

  lemma {:induction false} FallsAppend(b: Body, m: nat, n: nat)
    ensures Falls(b, m + n) == Falls(Falls(b, m), n)
    decreases m
  {
    if m > 0 {
      FallsAppend(Fall(b), m - 1, n);
    }
  }

  /** While each frame's velocity stays at -1 or less the body climbs at least a pixel per
      frame: no frame of such a climb is higher than its last one. */
  lemma {:induction false} ClimbIsMonotonic(b: Body, k: nat)
    requires b.y <= PlayerGroundY && b.vy + Gravity * (k as real) <= -1.0
    ensures forall i :: 0 <= i <= k ==> Falls(b, i).y >= Falls(b, k).y
    decreases k
  {
    if k > 0 {
      var b' := Fall(b);
      assert b'.y < b.y && b'.vy == b.vy + Gravity;
      ClimbIsMonotonic(b', k - 1);
      assert Falls(b, k) == Falls(b', k - 1);
      forall i | 0 <= i <= k ensures Falls(b, i).y >= Falls(b, k).y {
        if i > 0 {
          assert Falls(b, i) == Falls(b', i - 1);
        } else {
          assert Falls(b', 0).y >= Falls(b', k - 1).y;
        }
      }
    }
  }

  /** Once the velocity is -1 or more, the body never gets higher than it is. */
  lemma {:induction false} NoHigherThanApex(b: Body, n: nat)
    requires b.y <= PlayerGroundY && b.vy >= -1.0
    ensures Falls(b, n).y >= b.y
    decreases n
  {
    if n > 0 {
      var b' := Fall(b);
      assert Trunc(b.vy + Gravity) >= 0;
      assert b'.y >= b.y && b'.vy >= -1.0;
      NoHigherThanApex(b', n - 1);
    }
  }

  // ------------------------------------------------------------------- ball

  datatype Ball = Ball(x: int, y: int, vx: real, vy: real)

  /** One frame of ball motion: gravity, movement, a damped bounce on the ground line that
      dies out below speed 1, a damped bounce off either side wall, then friction. */
  function BallStep(b: Ball): (r: Ball)
    ensures 0 <= r.x <= ScreenW - BallW
    ensures r.y <= BallGroundY
    // in flight: gravity only
    ensures Trunc(b.y as real + b.vy + Gravity) < BallGroundY ==>
              r.y == Trunc(b.y as real + b.vy + Gravity) && r.vy == b.vy + Gravity
    // on the ground line: flipped and damped, and stopped once slower than 1
    ensures Trunc(b.y as real + b.vy + Gravity) >= BallGroundY ==>
              && r.y == BallGroundY
              && (r.vy == -BounceDamping * (b.vy + Gravity) || r.vy == 0.0)
              && (r.vy == 0.0 <==> Abs(BounceDamping * (b.vy + Gravity)) < 1.0)
              && Abs(r.vy) <= BounceDamping * Abs(b.vy + Gravity)
    // the side walls
    ensures Trunc(b.x as real + b.vx) <= 0 ==> r.x == 0 && r.vx == -BounceDamping * b.vx * Friction
    ensures 0 < Trunc(b.x as real + b.vx) && Trunc(b.x as real + b.vx) + BallW >= ScreenW ==>
              r.x == ScreenW - BallW && r.vx == -BounceDamping * b.vx * Friction
    ensures 0 < Trunc(b.x as real + b.vx) && Trunc(b.x as real + b.vx) + BallW < ScreenW ==>
              r.x == Trunc(b.x as real + b.vx) && r.vx == b.vx * Friction
    // friction always takes at least 2% of the horizontal speed
    ensures Abs(r.vx) <= Friction * Abs(b.vx)
  {
    var vy := b.vy + Gravity;
    var x := Trunc(b.x as real + b.vx);
    var y := Trunc(b.y as real + vy);
    var (y', vy') :=
      if y >= BallGroundY then
        var bounced := vy * -BounceDamping;
        (BallGroundY, if Abs(bounced) < 1.0 then 0.0 else bounced)
      else (y, vy);
    var (x', vx') :=
      if x <= 0 then (0, b.vx * -BounceDamping)
      else if x + BallW >= ScreenW then (ScreenW - BallW, b.vx * -BounceDamping)
      else (x, b.vx);
    Ball(x', y', vx' * Friction, vy')
  }

  /** A ball lying still on the ground line stays where it is. */
  lemma BallAtRestStays(x: int)
    requires 0 <= x <= ScreenW - BallW
    ensures BallStep(Ball(x, BallGroundY, 0.0, 0.0)) == Ball(x, BallGroundY, 0.0, 0.0)
  {
    assert Trunc(BallGroundY as real + 0.5) == BallGroundY;
    assert Trunc(x as real) == x;
  }

  /** `n` frames of ball motion. */
  function BallSteps(b: Ball, n: nat): Ball
    decreases n
  {
    if n == 0 then b else BallSteps(BallStep(b), n - 1)
  }

  /** `v` scaled down by friction `n` times over, that is `v * Friction^n`. */
  function Decayed(v: real, n: nat): real
    decreases n
  {
    if n == 0 then v else Decayed(Friction * v, n - 1)
  }

  lemma {:induction false} DecayedMonotonic(a: real, c: real, n: nat)
    requires a <= c
    ensures Decayed(a, n) <= Decayed(c, n)
    decreases n
  {
    if n > 0 {
      DecayedMonotonic(Friction * a, Friction * c, n - 1);
    }
  }

  /** After `n` frames the horizontal speed is at most `Friction^n` of what it was: friction
      alone drains it, and a wall bounce only drains it faster. */
  lemma {:induction false} HorizontalSpeedDecays(b: Ball, n: nat)
    ensures Abs(BallSteps(b, n).vx) <= Decayed(Abs(b.vx), n)
    decreases n
  {
    if n > 0 {
      var b1 := BallStep(b);
      HorizontalSpeedDecays(b1, n - 1);
      DecayedMonotonic(Abs(b1.vx), Friction * Abs(b.vx), n - 1);
    }
  }

  /** A ball that is not rolling sideways never starts to. */
  lemma {:induction false} NoSidewaysDrift(b: Ball, n: nat)
    requires b.vx == 0.0
    ensures BallSteps(b, n).vx == 0.0
  {
    HorizontalSpeedDecays(b, n);
    DecayedOfZero(n);
  }

  lemma {:induction false} DecayedOfZero(n: nat)
    ensures Decayed(0.0, n) == 0.0
    decreases n
  {
    if n > 0 {
      DecayedOfZero(n - 1);
    }
  }

  // -------------------------------------------------------------- collision

  /** Radii of the contact circles: the player's is 80% of half its width. */
  const PlayerRadius: real := (PlayerW as real / 2.0) * 0.8
  const BallRadius: real := BallW as real / 2.0
  const RadSum: real := PlayerRadius + BallRadius

  /** Shared pause after a bounce during which a second bounce is ignored, in ms. */
  const Cooldown: int := 200

  /** Horizontal and vertical offsets of the ball's centre from the player's centre;
      with whole-pixel positions they are whole numbers. */
  function CentreDx(pX: int, ballX: int): (dx: int)
    ensures dx as real == (ballX as real + BallW as real / 2.0) - (pX as real + PlayerW as real / 2.0)
  {
    (ballX + BallW / 2) - (pX + PlayerW / 2)
  }

  function CentreDy(pY: int, ballY: int): (dy: int)
    ensures dy as real == (ballY as real + BallH as real / 2.0) - (pY as real + PlayerH as real / 2.0)
  {
    (ballY + BallH / 2) - (pY + PlayerH / 2)
  }

  /** The circles overlap: squared centre distance strictly below the squared radius sum.
      With whole-number offsets that is `dx² + dy² <= 432` (the radius sum is 20.8, whose
      square is 432.64), so each offset is at most 20 pixels. */
  function Overlaps(dx: int, dy: int): (o: bool)
    ensures o <==> dx * dx + dy * dy <= 432
    ensures o ==> -20 <= dx <= 20 && -20 <= dy <= 20
  {
    assert RadSum * RadSum == 432.64;
    ((dx * dx + dy * dy) as real) < RadSum * RadSum
  }

  /** A component of the contact normal: the offset over the distance, or the fallback
      when the centres coincide. */
  function Normal(d: int, dist: real, fallback: real): (n: real)
    ensures dist > 0.0 ==> n * dist == d as real
    ensures dist <= 0.0 ==> n == fallback
  {
    if dist > 0.0 then d as real / dist else fallback
  }

  /** Direction of a kick or bounce: the sign of the normal's horizontal component. */
  function Dir(nx: real): (s: real)
    ensures s == 1.0 || s == -1.0
  {
    if nx >= 0.0 then 1.0 else -1.0
  }

  /** Whatever the square root returns, the direction is the side of the player the ball
      is on, and straight to the right when the centres coincide. */
  lemma DirIsSideOfBall(dx: int, dy: int, dist: real)
    requires dist >= 0.0 && dist * dist == (dx * dx + dy * dy) as real
    ensures Dir(Normal(dx, dist, 1.0)) == (if dx >= 0 then 1.0 else -1.0)
  {
    if dist > 0.0 {
      if dx >= 0 {
        assert dx as real / dist >= 0.0;
      } else {
        assert dx as real / dist < 0.0;
      }
    } else {
      assert dx * dx >= 0 && dy * dy >= 0;
      assert dx * dx == 0;
    }
  }

  /** The push-out moves the ball's centre along the normal until the circles just touch. */
  lemma PushOutReachesContact(dx: int, dy: int, dist: real)
    requires dist > 0.0 && dist * dist == (dx * dx + dy * dy) as real
    ensures var overlap := RadSum - dist;
      var cx := dx as real + Normal(dx, dist, 1.0) * overlap;
      var cy := dy as real + Normal(dy, dist, 0.0) * overlap;
      cx * cx + cy * cy == RadSum * RadSum
  {
    var k := RadSum / dist;
    var cx := dx as real + Normal(dx, dist, 1.0) * (RadSum - dist);
    var cy := dy as real + Normal(dy, dist, 0.0) * (RadSum - dist);
    assert cx == dx as real * k;
    assert cy == dy as real * k;
    calc {
      cx * cx + cy * cy;
      k * k * (dx as real * dx as real + dy as real * dy as real);
      k * k * (dist * dist);
      (k * dist) * (k * dist);
      RadSum * RadSum;
    }
  }

  /** Only the side of the player facing the opponent's goal can kick: the ball on the
      right of player 1, or on the left of player 2. */
  function InnerHit(playerId: int, dx: int): (inner: bool)
    ensures playerId == 1 ==> (inner <==> dx >= 0)
    ensures playerId == 2 ==> (inner <==> dx <= 0)
    ensures playerId != 1 && playerId != 2 ==> !inner
  {
    (playerId == 1 && dx >= 0) || (playerId == 2 && dx <= 0)
  }

  datatype Response = Kick | Bounce | NoResponse

  /** A valid kick always wins; otherwise a contact bounces only once the cooldown has
      passed, strictly. */
  function Arbitrate(kicking: bool, inner: bool, now: Millis, last: Millis): (r: Response)
    ensures r == Kick <==> kicking && inner
    ensures r == Bounce <==> !(kicking && inner) && Since(now, last) > Cooldown
  {
    if kicking && inner then Kick
    else if Since(now, last) > Cooldown then Bounce
    else NoResponse
  }

  /** Two non-kick contacts `gap` ms apart, the first of which bounced: the second bounces
      exactly when the gap exceeds the cooldown, even across a wrap of the clock. */
  lemma CooldownSpacing(t: Millis, gap: nat, kicking: bool, inner: bool)
    requires gap < ClockModulus && !(kicking && inner)
    ensures Arbitrate(kicking, inner, Later(t, gap), t) == Bounce <==> gap > Cooldown
  {
    SinceLater(t, gap);
  }

  /** What a player-ball contact leaves behind: the ball, the last bounce time, and the
      sound it fires. */
  datatype Contact = Contact(ball: Ball, last: Millis, sound: seq<SynthEvent>)

  /** The ball position after the push-out, truncated to whole pixels. */
  function PushedBall(b: Ball, dx: int, dy: int, dist: real): (r: Ball)
    ensures r.vx == b.vx && r.vy == b.vy
  {
    var overlap := RadSum - dist;
    var cx := b.x as real + BallW as real / 2.0 + Normal(dx, dist, 1.0) * overlap;
    var cy := b.y as real + BallH as real / 2.0 + Normal(dy, dist, 0.0) * overlap;
    b.(x := Trunc(cx - BallW as real / 2.0), y := Trunc(cy - BallH as real / 2.0))
  }

  /** One player-ball contact check. `dist` is the square root of the squared centre
      distance; `jitter` is the random part of a kick, -1, 0 or 1. */
  function Collide(pX: int, pY: int, kicking: bool, now: Millis, last: Millis, playerId: int,
                   b: Ball, dist: real, jitter: int): (c: Contact)
    requires dist >= 0.0
    requires dist * dist == (CentreDx(pX, b.x) * CentreDx(pX, b.x) + CentreDy(pY, b.y) * CentreDy(pY, b.y)) as real
    requires -1 <= jitter <= 1
    // apart: nothing changes
    ensures !Overlaps(CentreDx(pX, b.x), CentreDy(pY, b.y)) ==> c == Contact(b, last, [])
    // touching: the ball is pushed out, then kicked, bounced or left moving as it was
    ensures Overlaps(CentreDx(pX, b.x), CentreDy(pY, b.y)) ==>
              var dx := CentreDx(pX, b.x);
              var p := PushedBall(b, dx, CentreDy(pY, b.y), dist);
              var side := if dx >= 0 then 1.0 else -1.0;
              && c.ball.x == p.x && c.ball.y == p.y
              && match Arbitrate(kicking, InnerHit(playerId, dx), now, last)
                 case Kick =>
                   c.ball.vx == 15.0 * side + jitter as real && c.ball.vy == -6.0
                   && c.last == last && c.sound == KickSound()
                 case Bounce =>
                   && (p.y < pY + 5 ==> c.ball.vx == 3.0 * side && c.ball.vy == -6.0)
                   && (p.y >= pY + 5 ==> c.ball.vx == 2.0 * side && c.ball.vy == -2.5)
                   && c.last == now && c.sound == CollisionSound()
                 case NoResponse =>
                   c.ball.vx == b.vx && c.ball.vy == b.vy && c.last == last && c.sound == []
    // the cooldown timer only ever moves to now
    ensures c.last == last || c.last == now
    // neither a non-kicking player nor an unknown player id ever kicks
    ensures !kicking || (playerId != 1 && playerId != 2) ==> c.sound != KickSound()
  {
    var dx, dy := CentreDx(pX, b.x), CentreDy(pY, b.y);
    if !Overlaps(dx, dy) then
      Contact(b, last, [])
    else
      var p := PushedBall(b, dx, dy, dist);
      DirIsSideOfBall(dx, dy, dist);
      var dir := Dir(Normal(dx, dist, 1.0));
      match Arbitrate(kicking, InnerHit(playerId, dx), now, last)
      case Kick => Contact(p.(vx := 15.0 * dir + jitter as real, vy := -6.0), last, KickSound())
      case Bounce =>
        if p.y < pY + 5 then Contact(p.(vx := 3.0 * dir, vy := -6.0), now, CollisionSound())
        else Contact(p.(vx := 2.0 * dir, vy := -2.5), now, CollisionSound())
      case NoResponse => Contact(p, last, [])
  }

  /** Both players touch the ball in the same frame and neither kicks: the shared cooldown
      lets at most one of the two contacts bounce. */
  lemma OneBouncePerFrame(kicking1: bool, inner1: bool, kicking2: bool, inner2: bool,
                          now: Millis, last: Millis)
    requires !(kicking2 && inner2)
    ensures var r1 := Arbitrate(kicking1, inner1, now, last);
      var last' := if r1 == Bounce then now else last;
      r1 == Bounce ==> Arbitrate(kicking2, inner2, now, last') == NoResponse
  {
  }

  // ------------------------------------------------------------ global state

  /** Where everything is, as a value: both players' x and vertical state, and the ball. */
  datatype Scene = Scene(p1X: int, p1: Body, p2X: int, p2: Body, ball: Ball)

  /** The physics globals: both players, the ball and the key table. */
  class World {
    var p1X: int
    var p1Y: int
    var p1Vy: real
    var p1OnGround: bool
    var p2X: int
    var p2Y: int
    var p2Vy: real
    var p2OnGround: bool
    var ballX: int
    var ballY: int
    var ballVx: real
    var ballVy: real
    /** Pressed state per scan code; the table has 128 entries. */
    const keyState: array<bool>

    function P1(): Body reads this { Body(p1Y, p1Vy, p1OnGround) }
    function P2(): Body reads this { Body(p2Y, p2Vy, p2OnGround) }
    function TheBall(): Ball reads this { Ball(ballX, ballY, ballVx, ballVy) }
    function Snapshot(): Scene reads this { Scene(p1X, P1(), p2X, P2(), TheBall()) }

    /** The initial values of the globals: players 50 px in from either side on the
        ground line, the ball centred at the top, nothing moving, no key pressed. */
    constructor ()
      ensures p1X == 50 && p2X == ScreenW - 50 - PlayerW && ballX == ScreenW / 2 - BallW / 2
      ensures P1() == Body(PlayerGroundY, 0.0, true) && P2() == Body(PlayerGroundY, 0.0, true)
      ensures TheBall() == Ball(ScreenW / 2 - BallW / 2, 0, 0.0, 0.0)
      ensures fresh(keyState) && keyState.Length == 128
      ensures forall k :: 0 <= k < keyState.Length ==> !keyState[k]
    {
      p1X, p1Y, p1Vy, p1OnGround := 50, PlayerGroundY, 0.0, true;
      p2X, p2Y, p2Vy, p2OnGround := ScreenW - 50 - PlayerW, PlayerGroundY, 0.0, true;
      ballX, ballY, ballVx, ballVy := ScreenW / 2 - BallW / 2, 0, 0.0, 0.0;
      keyState := new bool[128](_ => false);
    }

    /** One frame of gravity for both players. */
    method ApplyGravityAndGround()
      modifies this`p1Y, this`p1Vy, this`p1OnGround, this`p2Y, this`p2Vy, this`p2OnGround
      ensures P1() == Fall(old(P1())) && P2() == Fall(old(P2()))
    {
      p1Vy := p1Vy + Gravity;
      p2Vy := p2Vy + Gravity;
      p1Y := p1Y + Trunc(p1Vy);
      p2Y := p2Y + Trunc(p2Vy);
      if p1Y >= PlayerGroundY {
        p1Y, p1Vy, p1OnGround := PlayerGroundY, 0.0, true;
      }
      if p2Y >= PlayerGroundY {
        p2Y, p2Vy, p2OnGround := PlayerGroundY, 0.0, true;
      }
    }

    /** One frame of ball motion. */
    method UpdateBallMotion()
      modifies this`ballX, this`ballY, this`ballVx, this`ballVy
      ensures TheBall() == BallStep(old(TheBall()))
    {
      ballVy := ballVy + Gravity;
      ballX := Trunc(ballX as real + ballVx);
      ballY := Trunc(ballY as real + ballVy);
      if ballY >= BallGroundY {
        ballY := BallGroundY;
        ballVy := ballVy * -BounceDamping;
        if Abs(ballVy) < 1.0 {
          ballVy := 0.0;
        }
      }
      if ballX <= 0 {
        ballX := 0;
        ballVx := ballVx * -BounceDamping;
      } else if ballX + BallW >= 640 {
        ballX := 640 - BallW;
        ballVx := ballVx * -BounceDamping;
      }
      ballVx := ballVx * Friction;
    }

    /** One player-ball contact check; the caller's last bounce time comes in as `last`
        and goes back out as `newLast`, and `sound` is what the contact plays. */
    method HandlePlayerBallCollision(pX: int, pY: int, kicking: bool, now: Millis, last: Millis,
                                     playerId: int, dist: real, jitter: int)
      returns (newLast: Millis, sound: seq<SynthEvent>)
      requires dist >= 0.0
      requires dist * dist == (CentreDx(pX, ballX) * CentreDx(pX, ballX) + CentreDy(pY, ballY) * CentreDy(pY, ballY)) as real
      requires -1 <= jitter <= 1
      modifies this`ballX, this`ballY, this`ballVx, this`ballVy
      ensures Contact(TheBall(), newLast, sound) ==
              Collide(pX, pY, kicking, now, last, playerId, old(TheBall()), dist, jitter)
    {
      newLast, sound := last, [];
      var dx, dy := CentreDx(pX, ballX), CentreDy(pY, ballY);
      if !Overlaps(dx, dy) {
        return;
      }
      var pushed := PushedBall(TheBall(), dx, dy, dist);
      ballX, ballY := pushed.x, pushed.y;
      var dir := Dir(Normal(dx, dist, 1.0));
      var inner := InnerHit(playerId, dx);
      if kicking && inner {
        ballVx := 15.0 * dir + jitter as real;
        ballVy := -6.0;
        sound := KickSound();
      } else if Since(now, last) > Cooldown {
        if ballY < pY + 5 {
          ballVx, ballVy := 3.0 * dir, -6.0;
        } else {
          ballVx, ballVy := 2.0 * dir, -2.5;
        }
        sound := CollisionSound();
        newLast := now;
      }
    }
  }
}
