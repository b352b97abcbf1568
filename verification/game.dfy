/**
  The game's mutable state, updated in place as the game component does:
  a ball and a platform whose fields each frame overwrites step by step, a
  score counter and a running flag. Every method is proved to leave the
  state that the value-level functions of Physics and Frames describe, so
  the lemmas proved there hold of this state too.
*/
module GameState {
  import opened Physics
  import Frames

  class Ball {
    var x: real
    var y: real
    var vx: real
    var vy: real
    const radius: real

    constructor (x: real, y: real, radius: real)
      ensures this.x == x && this.y == y && vx == 0.0 && vy == 0.0 && this.radius == radius
    {
      this.x, this.y, vx, vy := x, y, 0.0, 0.0;
      this.radius := radius;
    }

    function Value(): (v: BallState)
      reads this
    {
      BallState(x, y, vx, vy, radius)
    }
  }

  class Platform {
    var x: real
    const width: real
    const y: real

    constructor (x: real, width: real, y: real)
      ensures this.x == x && this.width == width && this.y == y
    {
      this.x, this.width, this.y := x, width, y;
    }

    function Value(): (v: PlatformState)
      reads this
    {
      PlatformState(x, width, y)
    }
  }

  class Game {
    const screenWidth: real
    const screenHeight: real
    const ball: Ball
    const platform: Platform
    var score: nat
    var running: bool

    /** The whole game state as a value. */
    function Model(): (w: World)
      reads this, ball, platform
    {
      World(ball.Value(), platform.Value(), score, running)
    }

    /** Sizes as the game fixes them, on a screen that fits them, with the
        platform and the ball horizontally on screen. */
    ghost predicate Valid()
      reads this, ball, platform
    {
      ScreenFits(screenWidth, screenHeight) &&
      WellFormed(Model(), screenHeight) &&
      OnScreen(Model(), screenWidth)
    }

    /** A new game: ball above the middle of the platform, at rest. */
    constructor (screenWidth: real, screenHeight: real)
      requires ScreenFits(screenWidth, screenHeight)
      ensures this.screenWidth == screenWidth && this.screenHeight == screenHeight
      ensures fresh(ball) && fresh(platform)
      ensures Valid() && Model() == InitialWorld(screenWidth, screenHeight)
    {
      this.screenWidth, this.screenHeight := screenWidth, screenHeight;
      var platformY := screenHeight - PLATFORM_OFFSET;
      ball := new Ball(screenWidth / 2.0, platformY - DROP_HEIGHT, BALL_RADIUS);
      platform := new Platform((screenWidth - PLATFORM_WIDTH) / 2.0, PLATFORM_WIDTH, platformY);
      score, running := 0, true;
    }

    /** Puts the ball back above the middle of the platform at rest, the
        platform back in the middle, the score to zero, and restarts. */
    method ResetGame()
      requires Valid()
      modifies ball, platform, this`score, this`running
      ensures Valid() && Model() == InitialWorld(screenWidth, screenHeight)
    {
      ball.x := screenWidth / 2.0;
      ball.y := screenHeight - PLATFORM_OFFSET - DROP_HEIGHT;
      ball.vx := 0.0;
      ball.vy := 0.0;
      platform.x := (screenWidth - PLATFORM_WIDTH) / 2.0;
      score := 0;
      running := true;
    }

    /** Phase 1: the platform moves by the tilt-driven speed and is
        clamped, left edge first. */
    method MovePlatformByTilt(desiredVx: real, dt: real)
      requires Valid()
      modifies platform
      ensures Valid()
      ensures platform.Value() == MovePlatform(old(platform.Value()), desiredVx, dt, screenWidth)
    {
      var p := platform;
      p.x := p.x + desiredVx * dt;
      if p.x < 0.0 { p.x := 0.0; }
      if p.x + p.width > screenWidth { p.x := screenWidth - p.width; }
    }

    /** Phases 2 to 4: gravity, integration, then the side walls and the
        top wall. */
    method MoveBall(dt: real)
      requires Valid()
      modifies ball
      ensures Valid()
      ensures ball.Value() == BallBeforeContact(old(ball.Value()), dt, screenWidth)
    {
      var b := ball;
      b.vy := b.vy + GRAVITY * dt;
      b.x := b.x + b.vx * dt;
      b.y := b.y + b.vy * dt;
      assert b.Value() == Integrate(old(b.Value()), dt);

      if b.x - b.radius < 0.0 {
        b.x := b.radius;
        b.vx := -b.vx * SIDE_FRICTION;
      } else if b.x + b.radius > screenWidth {
        b.x := screenWidth - b.radius;
        b.vx := -b.vx * SIDE_FRICTION;
      }

      if b.y - b.radius < 0.0 {
        b.y := b.radius;
        b.vy := -b.vy * RESTITUTION;
      }
    }

    /** Phase 5: the platform contact test, and on a catch the bounce, the
        drive transfer and one more point. */
    method CatchBall(desiredVx: real)
      requires Valid()
      modifies ball, this`score
      ensures Valid()
      ensures ball.Value() == PlatformBounce(old(ball.Value()), platform.Value(), desiredVx)
      ensures score == if Bounces(old(ball.Value()), platform.Value()) then old(score) + 1 else old(score)
    {
      var b, p := ball, platform;
      var nearestX := Max(p.x, Min(b.x, p.x + p.width));
      var dy := b.y + b.radius - p.y;
      var distX := Abs(nearestX - b.x);
      var collidedWithPlatform := dy >= 0.0 && b.y - b.radius <= p.y && distX <= b.radius + CONTACT_TOLERANCE;
      assert collidedWithPlatform == Touches(b.Value(), p.Value());

      if collidedWithPlatform && b.vy > 0.0 {
        b.y := p.y - b.radius - CONTACT_GAP;
        b.vy := -Abs(b.vy) * RESTITUTION;
        b.vx := b.vx + desiredVx * DRIVE_TRANSFER;
        score := score + 1;
      }
    }

    /** One physics step of dt seconds with the latest tilt sample accelX:
        the phases above in the order updatePhysics runs them, then phase 6, which ends the game
        once the ball has fallen out through the bottom. */
    method UpdatePhysics(accelX: real, dt: real)
      requires Valid()
      modifies ball, platform, this`score, this`running
      ensures Valid()
      ensures Model() == PhysicsStep(old(Model()), accelX, dt, screenWidth, screenHeight)
      ensures score == old(score) || score == old(score) + 1
      ensures running ==> old(running)
    {
      ghost var w := Model();
      var desiredVx := accelX * ACCEL_SENSITIVITY;
      MovePlatformByTilt(desiredVx, dt);
      MoveBall(dt);
      ghost var before := ball.Value();
      CatchBall(desiredVx);
      if ball.y - ball.radius > screenHeight {
        running := false;
      }
      ghost var expected := PhysicsStep(w, accelX, dt, screenWidth, screenHeight);
      assert expected == World(PlatformBounce(before, platform.Value(), desiredVx), platform.Value(),
                               if Bounces(before, platform.Value()) then w.score + 1 else w.score,
                               if FellOut(ball.Value(), screenHeight) then false else w.running);
      assert Model() == expected;
    }

    /** One animation frame: clamp the elapsed time and step the physics
        only while the game is running. */
    method Tick(accelX: real, elapsedMs: real)
      requires Valid()
      modifies ball, platform, this`score, this`running
      ensures Valid()
      ensures Model() == Frames.Frame(old(Model()), Frames.Sample(accelX, elapsedMs), screenWidth, screenHeight)
      ensures !old(running) ==> Model() == old(Model())
    {
      var dt := Frames.ClampDt(elapsedMs);
      if running {
        UpdatePhysics(accelX, dt);
      }
    }
  }
}
