/**
  The per-frame physics of the tilt-controlled bounce game, stated on values.

  One frame runs six phases in a fixed order: the platform follows the tilt
  and is clamped on screen, gravity and semi-implicit Euler integration move
  the ball, the side walls and the top wall reflect it, the platform catches
  it (and scores), and a ball that has left through the bottom ends the game.
  Each phase is a function below; PhysicsStep composes them in that order and
  is the specification that GameState.Game.UpdatePhysics is proved against.

  Coordinates are screen pixels with y growing downwards; velocities are
  pixels per second; dt is in seconds. Numbers are exact reals.
*/
module Physics {

  const BALL_RADIUS: real := 16.0
  const PLATFORM_WIDTH: real := 140.0
  /** The platform's top edge sits this far above the bottom of the screen. */
  const PLATFORM_OFFSET: real := 200.0
  /** A new ball starts this far above the platform's top edge. */
  const DROP_HEIGHT: real := 300.0
  const GRAVITY: real := 500.0
  /** Speed kept (and slightly gained) after a platform or top-wall bounce. */
  const RESTITUTION: real := 1.02
  /** Speed kept after a side-wall bounce. */
  const SIDE_FRICTION: real := 0.85
  /** Platform speed per unit of tilt. */
  const ACCEL_SENSITIVITY: real := 1000.0
  /** Slack allowed in the horizontal contact test. */
  const CONTACT_TOLERANCE: real := 0.0001
  /** A caught ball is placed this far above the platform's top edge. */
  const CONTACT_GAP: real := 0.01
  /** Fraction of the platform's drive speed handed to the ball on a catch. */
  const DRIVE_TRANSFER: real := 0.35

  datatype BallState = BallState(x: real, y: real, vx: real, vy: real, radius: real)
  datatype PlatformState = PlatformState(x: real, width: real, y: real)
  datatype World = World(ball: BallState, platform: PlatformState, score: nat, running: bool)

  function Abs(v: real): (r: real)
    ensures r >= 0.0 && (r == v || r == -v)
  {
    if v < 0.0 then -v else v
  }

  function Min(a: real, b: real): (r: real) { if a <= b then a else b }

  function Max(a: real, b: real): (r: real) { if a >= b then a else b }

  function Dist(a: real, b: real): (r: real) { Abs(a - b) }

  /** c is the point of the interval [lo, hi] closest to v. */
  ghost predicate IsNearestIn(v: real, lo: real, hi: real, c: real) {
    lo <= c <= hi && forall z :: lo <= z <= hi ==> Dist(c, v) <= Dist(z, v)
  }

  /** The screen is wide enough for the platform, and tall enough that a
      ball resting on the platform is below the top wall. */
  predicate ScreenFits(screenWidth: real, screenHeight: real) {
    screenWidth >= PLATFORM_WIDTH &&
    screenHeight - PLATFORM_OFFSET - 2.0 * BALL_RADIUS - CONTACT_GAP >= 0.0
  }

  /** The sizes and the platform height that a game fixes at its start. */
  predicate WellFormed(w: World, screenHeight: real) {
    w.ball.radius == BALL_RADIUS &&
    w.platform.width == PLATFORM_WIDTH &&
    w.platform.y == screenHeight - PLATFORM_OFFSET
  }

  /** Platform and ball lie horizontally within the screen. */
  predicate OnScreen(w: World, screenWidth: real) {
    0.0 <= w.platform.x <= screenWidth - w.platform.width &&
    w.ball.radius <= w.ball.x <= screenWidth - w.ball.radius
  }

  /** The state a game starts from and is reset to. */
  function InitialWorld(screenWidth: real, screenHeight: real): (w: World)
    ensures w.running && w.score == 0
    ensures w.ball.vx == 0.0 && w.ball.vy == 0.0
    ensures w.ball.x == w.platform.x + w.platform.width / 2.0 == screenWidth / 2.0
    ensures w.platform.y - w.ball.y == DROP_HEIGHT
    ensures WellFormed(w, screenHeight)
    ensures ScreenFits(screenWidth, screenHeight) ==> OnScreen(w, screenWidth)
  {
    var platformY := screenHeight - PLATFORM_OFFSET;
    World(BallState(screenWidth / 2.0, platformY - DROP_HEIGHT, 0.0, 0.0, BALL_RADIUS),
          PlatformState((screenWidth - PLATFORM_WIDTH) / 2.0, PLATFORM_WIDTH, platformY),
          0, true)
  }

  /** Phase 1: the platform moves at the tilt-driven speed and is pushed
      back on screen, first at the left edge, then at the right edge. */
  function MovePlatform(p: PlatformState, desiredVx: real, dt: real, screenWidth: real): (r: PlatformState)
    ensures r.width == p.width && r.y == p.y
    ensures p.width <= screenWidth ==> IsNearestIn(p.x + desiredVx * dt, 0.0, screenWidth - p.width, r.x)
    ensures p.width > screenWidth ==> r.x == screenWidth - p.width
  {
    var moved := p.x + desiredVx * dt;
    var x := if moved < 0.0 then 0.0 else moved;
    var x' := if x + p.width > screenWidth then screenWidth - p.width else x;
    p.(x := x')
  }

  /** Phase 2: gravity first, then both coordinates advance by the
      updated velocity (semi-implicit Euler). */
  function Integrate(b: BallState, dt: real): (r: BallState)
    ensures r.radius == b.radius && r.vx == b.vx
    ensures r.vy - b.vy == GRAVITY * dt
    ensures r.x - b.x == r.vx * dt && r.y - b.y == r.vy * dt
  {
    var vy := b.vy + GRAVITY * dt;
    b.(x := b.x + b.vx * dt, y := b.y + vy * dt, vy := vy)
  }

  predicate HitsSideWall(b: BallState, screenWidth: real) {
    b.x - b.radius < 0.0 || b.x + b.radius > screenWidth
  }

  /** Phase 3: a ball poking out at the left (tested first) or the right
      edge is put back against that edge and its horizontal speed is
      reversed and damped. */
  function SideWalls(b: BallState, screenWidth: real): (r: BallState)
    ensures r.y == b.y && r.vy == b.vy && r.radius == b.radius
    ensures 2.0 * b.radius <= screenWidth ==> IsNearestIn(b.x, b.radius, screenWidth - b.radius, r.x)
    ensures HitsSideWall(b, screenWidth) ==>
              r.vx == -b.vx * SIDE_FRICTION && Abs(r.vx) == SIDE_FRICTION * Abs(b.vx) &&
              (b.vx > 0.0 ==> r.vx < 0.0) && (b.vx < 0.0 ==> r.vx > 0.0)
    ensures !HitsSideWall(b, screenWidth) ==> r == b
  {
    if b.x - b.radius < 0.0 then
      b.(x := b.radius, vx := -b.vx * SIDE_FRICTION)
    else if b.x + b.radius > screenWidth then
      b.(x := screenWidth - b.radius, vx := -b.vx * SIDE_FRICTION)
    else
      b
  }

  predicate HitsTopWall(b: BallState) {
    b.y - b.radius < 0.0
  }

  /** Phase 4: a ball poking out above the top edge is put back against it
      and its vertical speed is reversed and scaled by RESTITUTION. */
  function TopWall(b: BallState): (r: BallState)
    ensures r.x == b.x && r.vx == b.vx && r.radius == b.radius
    ensures r.y == Max(b.y, b.radius)
    ensures HitsTopWall(b) ==> r.vy == -b.vy * RESTITUTION && (b.vy < 0.0 ==> r.vy > 0.0)
    ensures !HitsTopWall(b) ==> r == b
  {
    if b.y - b.radius < 0.0 then
      b.(y := b.radius, vy := -b.vy * RESTITUTION)
    else
      b
  }

  /** The contact test of phase 5: the ball's bottom edge has reached the
      platform's top edge, its top edge has not passed it, and its centre is
      within a radius (plus tolerance) of the platform's horizontal span.
      For a platform of non-negative width this is exactly "the centre lies
      in the top edge's strip widened by the radius". */
  predicate Touches(b: BallState, p: PlatformState)
    ensures p.width >= 0.0 ==>
      (Touches(b, p) <==>
        p.y - b.radius <= b.y <= p.y + b.radius &&
        p.x - b.radius - CONTACT_TOLERANCE <= b.x <= p.x + p.width + b.radius + CONTACT_TOLERANCE)
  {
    var nearestX := Max(p.x, Min(b.x, p.x + p.width));
    var dy := b.y + b.radius - p.y;
    var distX := Abs(nearestX - b.x);
    dy >= 0.0 && b.y - b.radius <= p.y && distX <= b.radius + CONTACT_TOLERANCE
  }

  /** A catch: contact while the ball moves down. */
  predicate Bounces(b: BallState, p: PlatformState) {
    Touches(b, p) && b.vy > 0.0
  }

  /** Phase 5: a caught ball is placed just above the platform, sent back
      up faster by RESTITUTION, and given part of the platform's drive. */
  function PlatformBounce(b: BallState, p: PlatformState, desiredVx: real): (r: BallState)
    ensures r.x == b.x && r.radius == b.radius
    ensures Bounces(b, p) ==>
              r.y == p.y - b.radius - CONTACT_GAP && r.y + r.radius < p.y &&
              r.vy < 0.0 && Abs(r.vy) == RESTITUTION * Abs(b.vy) &&
              r.vx - b.vx == DRIVE_TRANSFER * desiredVx
    ensures !Bounces(b, p) ==> r == b
  {
    if Touches(b, p) && b.vy > 0.0 then
      b.(y := p.y - b.radius - CONTACT_GAP,
         vy := -Abs(b.vy) * RESTITUTION,
         vx := b.vx + desiredVx * DRIVE_TRANSFER)
    else
      b
  }

  /** Phase 6: the ball's top edge is below the bottom of the screen. */
  predicate FellOut(b: BallState, screenHeight: real) {
    b.y - b.radius > screenHeight
  }

  /** The ball as the contact test of phase 5 sees it: after the platform
      move, the integration and both wall corrections. */
  function BallBeforeContact(b: BallState, dt: real, screenWidth: real): (r: BallState) {
    TopWall(SideWalls(Integrate(b, dt), screenWidth))
  }

  /** One whole frame of updatePhysics, phases in the order updatePhysics runs them. The drive
      speed computed in phase 1 is the one handed on in phase 5. */
  function PhysicsStep(w: World, accelX: real, dt: real, screenWidth: real, screenHeight: real): (r: World)
    ensures r.ball.radius == w.ball.radius
    ensures r.platform.width == w.platform.width && r.platform.y == w.platform.y
    ensures WellFormed(w, screenHeight) ==> WellFormed(r, screenHeight)
    ensures WellFormed(w, screenHeight) && ScreenFits(screenWidth, screenHeight) ==> OnScreen(r, screenWidth)
    ensures r.score == w.score || r.score == w.score + 1
    ensures r.score == w.score + 1 <==> Bounces(BallBeforeContact(w.ball, dt, screenWidth), r.platform)
    ensures BallBeforeContact(w.ball, dt, screenWidth).vy <= 0.0 ==> r.score == w.score
    ensures r.score == w.score + 1 ==> r.ball.vy < 0.0 && r.ball.y + r.ball.radius < r.platform.y
    ensures r.running <==> w.running && !FellOut(r.ball, screenHeight)
    ensures r.score == w.score + 1 && r.platform.y <= screenHeight ==> r.running == w.running
  {
    var desiredVx := accelX * ACCEL_SENSITIVITY;
    var p := MovePlatform(w.platform, desiredVx, dt, screenWidth);
    var b := BallBeforeContact(w.ball, dt, screenWidth);
    var caught := Bounces(b, p);
    var b' := PlatformBounce(b, p, desiredVx);
    World(b', p,
          if caught then w.score + 1 else w.score,
          if FellOut(b', screenHeight) then false else w.running)
  }

  /** A side-wall hit always sends the ball back into the screen: a ball
      that started the frame between the walls and crossed one during a
      frame of positive length leaves it moving away from that wall. */
  lemma WallSendsBallInward(b: BallState, dt: real, screenWidth: real)
    requires b.radius <= b.x <= screenWidth - b.radius
    requires dt > 0.0
    ensures var m := Integrate(b, dt);
            (m.x - m.radius < 0.0 ==> SideWalls(m, screenWidth).vx > 0.0) &&
            (m.x - m.radius >= 0.0 && m.x + m.radius > screenWidth ==> SideWalls(m, screenWidth).vx < 0.0)
  {
  }

  /** The platform cannot be skipped by a falling ball that moves at most
      its own diameter in one frame: if the ball's bottom edge starts the
      frame at or above the platform's top edge, ends the integration at or
      below it, and the ball is over the platform, the frame is a catch. */
  lemma NoTunnelling(w: World, accelX: real, dt: real, screenWidth: real, screenHeight: real)
    requires WellFormed(w, screenHeight) && ScreenFits(screenWidth, screenHeight)
    requires w.ball.y + w.ball.radius <= w.platform.y
    requires var m := Integrate(w.ball, dt);
             m.vy > 0.0 && m.vy * dt <= 2.0 * m.radius && m.y + m.radius >= w.platform.y
    requires var b := BallBeforeContact(w.ball, dt, screenWidth);
             var p := MovePlatform(w.platform, accelX * ACCEL_SENSITIVITY, dt, screenWidth);
             p.x <= b.x <= p.x + p.width
    ensures PhysicsStep(w, accelX, dt, screenWidth, screenHeight).score == w.score + 1
  {
  }
}
