// The game object: the module-level variables of the source (current
// level, in-progress flag, active-brick counter, speed modifiers), the ball,
// the platform and its two intents, the brick list and the message, updated
// in place by the game's operations. Each method is proved to take the
// state to what the matching function of the Session module prescribes.

module BrickBreaker {
  import opened Geometry
  import opened Levels
  import opened Bricks
  import opened Layout
  import opened Collisions
  import opened Session
  import Properties

  class Game {
    const cfg: Config
    var currentLevel: nat
    var inProgress: bool
    var bricksActive: int
    var modifiers: Modifiers
    var ballX: real
    var ballY: real
    var ballShown: bool
    var platX: real
    var leftHeld: bool
    var rightHeld: bool
    var bricks: seq<Brick>
    var message: Message

    /** The state as a value. */
    function Snapshot(): State
      reads this
    {
      State(currentLevel, inProgress, bricksActive, modifiers, ballX, ballY, ballShown,
            platX, leftHeld, rightHeld, bricks, message)
    }

    /** initialize: nothing running, the start message shown. */
    constructor (cfg: Config)
      ensures this.cfg == cfg && Snapshot() == Initial()
    {
      this.cfg := cfg;
      currentLevel, inProgress, bricksActive, modifiers := 0, false, 0, Base;
      ballX, ballY, ballShown, platX := 0.0, 0.0, false, 0.0;
      leftHeld, rightHeld, bricks, message := false, false, [], StartMsg;
    }

    method Reset(msg: Message)
      modifies this
      ensures Snapshot() == Session.Reset(old(Snapshot()), msg)
    {
      inProgress, message, currentLevel, bricksActive := false, msg, 0, 0;
      modifiers, ballShown, bricks := Base, false, [];
    }

    method GameOver()
      modifies this
      ensures Snapshot() == Session.GameOver(old(Snapshot()))
    {
      Reset(Lost);
    }

    method MoveToNextLevel()
      modifies this
      ensures Snapshot() == NextLevel(old(Snapshot()))
    {
      message := RoundWin;
      inProgress := false;
      currentLevel := currentLevel + 1;
      if currentLevel > 2 {
        Reset(Won);
      } else {
        modifiers := Modifiers(modifiers.ballX + 2.0, modifiers.ballY + 2.0, modifiers.platX + 3.0);
        ballShown := false;
        bricks := [];
      }
    }

    /** createBrick: append the brick a cell value makes, counting normal and strong ones. */
    method CreateBrick(x: real, y: real, t: int)
      modifies this`bricks, this`bricksActive
      ensures bricks == old(bricks) + NewBrick(x, y, t)
      ensures bricksActive == old(bricksActive) + (if t == 1 || t == 2 then 1 else 0)
    {
      match t
      case 0 =>
        bricks := bricks + [Brick(x, y, Empty, false)];
      case 1 =>
        bricksActive := bricksActive + 1;
        bricks := bricks + [Brick(x, y, Normal, false)];
      case 2 =>
        bricksActive := bricksActive + 1;
        bricks := bricks + [Brick(x, y, Strong, false)];
      case 3 =>
        bricks := bricks + [Brick(x, y, Invuln, false)];
      case _ =>
    }

    /**
     * One cell of buildBricks: the wrap check, then, unless skipping, the
     * brick and the move one cell right. The cursor and the list grow as
     * CursorAfter and Built prescribe for the cells visited so far.
     */
    method LayCell(t: int, x: real, y: real, skip: bool, ghost bricks0: seq<Brick>, ghost active0: int, ghost visited: seq<int>)
      returns (x': real, y': real, skip': bool)
      requires Cursor(x, y, skip) == CursorAfter(visited, cfg)
      requires bricks == bricks0 + Built(visited, cfg)
      requires bricksActive == active0 + ActiveCount(Built(visited, cfg))
      modifies this`bricks, this`bricksActive
      ensures Cursor(x', y', skip') == CursorAfter(visited + [t], cfg)
      ensures bricks == bricks0 + Built(visited + [t], cfg)
      ensures bricksActive == active0 + ActiveCount(Built(visited + [t], cfg))
    {
      x', y', skip' := x, y, skip;
      if x' > cfg.width as real - 160.0 {
        y' := y' + 60.0;
        if y' > cfg.height as real / 2.0 {
          skip' := true;
        }
        x' := StartX(cfg);
      }
      assert Cursor(x', y', skip') == Wrap(CursorAfter(visited, cfg), cfg);
      if !skip' {
        CreateBrick(x', y', t);
        x' := x' + 160.0;
      }
      AppendCell(bricks0, visited, t, cfg);
    }

    /**
     * buildBricks: walk the level's cells row by row with the wrap check and
     * the sticky skip flag, appending bricks and counting the active ones.
     */
    method BuildBricks(level: Level)
      modifies this`bricks, this`bricksActive
      ensures bricks == old(bricks) + Built(Flatten(level), cfg)
      ensures bricksActive == old(bricksActive) + ActiveCount(Built(Flatten(level), cfg))
    {
      var x, y := StartX(cfg), 60.0;
      var skip := false;
      ghost var bricks0, active0 := bricks, bricksActive;
      ghost var visited: seq<int> := [];
      var i := 0;
      while i < |level|
        invariant 0 <= i <= |level|
        invariant visited == Flatten(level[..i])
        invariant Cursor(x, y, skip) == CursorAfter(visited, cfg)
        invariant bricks == bricks0 + Built(visited, cfg)
        invariant bricksActive == active0 + ActiveCount(Built(visited, cfg))
      {
        var row := level[i];
        var j := 0;
        ghost var done := visited;
        while j < |row|
          invariant 0 <= j <= |row|
          invariant visited == done + row[..j]
          invariant Cursor(x, y, skip) == CursorAfter(visited, cfg)
          invariant bricks == bricks0 + Built(visited, cfg)
          invariant bricksActive == active0 + ActiveCount(Built(visited, cfg))
        {
          x, y, skip := LayCell(row[j], x, y, skip, bricks0, active0, visited);
          NextCell(done, row, j);
          visited := visited + [row[j]];
          j := j + 1;
        }
        assert level[..i + 1][..i] == level[..i];
        assert row[..|row|] == row;
        i := i + 1;
      }
      assert level[..|level|] == level;
    }

    /** The first part of start: hide the message, show the ball, place the platform at 0 and the ball on it. */
    method Launch()
      modifies this
      ensures Snapshot() == Session.Launch(old(Snapshot()), cfg)
    {
      message := NoMessage;
      ballShown := true;
      platX := 0.0;
      ballY := cfg.platformTop - 40.0;
      ballX := platX + 12.0;
    }

    /** buildBricks applied to the current level of the catalog. */
    method BuildCurrentLevel()
      requires currentLevel < |Catalog|
      modifies this
      ensures Snapshot() == Session.BuildBricks(old(Snapshot()), old(currentLevel), cfg)
    {
      BuildBricks(Catalog[currentLevel]);
    }

    /** start: launch the ball, build the current level and run. */
    method Start()
      requires currentLevel < |Catalog|
      modifies this
      ensures Snapshot() == Session.Start(old(Snapshot()), cfg)
    {
      Launch();
      BuildCurrentLevel();
      inProgress := true;
    }

    /** The win check at the head of checkBrickCollisions. */
    method CheckWin()
      modifies this
      ensures Snapshot() == WinCheck(old(Snapshot()))
    {
      if bricksActive == 0 && inProgress {
        MoveToNextLevel();
      }
    }

    /** The scan of checkBrickCollisions: list order, stopping at the first brick the ball touches. */
    method ScanBricks()
      modifies this
      ensures Snapshot() == Scan(old(Snapshot()), cfg)
    {
      var box := BallBox(Snapshot(), cfg);
      var i := 0;
      while i < |bricks|
        invariant 0 <= i <= |bricks|
        invariant Snapshot() == old(Snapshot())
        invariant forall j :: 0 <= j < i ==> !HitsBrick(box, bricks[j], cfg)
      {
        if HitsBrick(box, bricks[i], cfg) {
          FirstHitUnique(bricks, box, cfg, i);
          HitBrick(i);
          break;
        }
        i := i + 1;
      }
    }

    /** The branch of the scan for the brick the ball touches, by its kind. */
    method HitBrick(i: nat)
      requires i < |bricks|
      modifies this`modifiers, this`bricks, this`bricksActive
      ensures Snapshot() == Hit(old(Snapshot()), i)
    {
      var brick := bricks[i];
      if brick.kind == Empty {
      } else if brick.kind == Strong && !brick.hit {
        modifiers := modifiers.(ballY := -modifiers.ballY);
        bricks := bricks[i := brick.(hit := true)];
      } else if brick.kind == Strong && brick.hit {
        modifiers := modifiers.(ballY := -modifiers.ballY);
        bricks := Remove(bricks, i);
        bricksActive := bricksActive - 1;
      } else if brick.kind == Invuln {
        modifiers := modifiers.(ballY := -modifiers.ballY);
      } else {
        modifiers := modifiers.(ballY := -modifiers.ballY);
        bricks := Remove(bricks, i);
        bricksActive := bricksActive - 1;
      }
    }

    /** checkBrickCollisions: the win check, then the scan. */
    method CheckBrickCollisions()
      modifies this
      ensures Snapshot() == CheckBricks(old(Snapshot()), cfg)
      ensures ballX == old(ballX) && ballY == old(ballY)
    {
      CheckWin();
      ScanBricks();
    }

    /** positionPlatform: guarded moves by the platform speed, without a clamp. */
    method PositionPlatform()
      modifies this`platX
      ensures Snapshot() == Session.PositionPlatform(old(Snapshot()), cfg)
    {
      var current := platX;
      if leftHeld && current > cfg.left {
        current := current - modifiers.platX;
      }
      if rightHeld && current < Right(cfg) - cfg.platformWidth {
        current := current + modifiers.platX;
      }
      platX := current;
    }

    /** The vertical wall check of positionBall: the bottom edge ends the game, the top edge bounces. */
    method CheckVerticalWall(y: real)
      requires y == ballY
      modifies this
      ensures Snapshot() == BounceY(old(Snapshot()), cfg)
      ensures ballX == old(ballX) && ballY == old(ballY)
    {
      if ShouldReverseY(y, cfg) {
        if y > cfg.height as real - cfg.ballSize {
          GameOver();
        } else {
          modifiers := modifiers.(ballY := -modifiers.ballY);
        }
      }
    }

    /** The horizontal wall check of positionBall. */
    method CheckHorizontalWall(x: real)
      requires x == ballX
      modifies this
      ensures Snapshot() == BounceX(old(Snapshot()), cfg)
      ensures ballX == old(ballX) && ballY == old(ballY)
    {
      if ShouldReverseX(x, cfg) {
        modifiers := modifiers.(ballX := -modifiers.ballX);
      }
    }

    /** The platform check of positionBall: deflect by where the ball meets the platform. */
    method CheckPlatform(x: real)
      requires x == ballX
      modifies this
      ensures Snapshot() == Paddle(old(Snapshot()), cfg)
      ensures ballX == old(ballX) && ballY == old(ballY)
    {
      if PlatformContact(Snapshot(), cfg) {
        var temp := (x - platX - cfg.platformWidth / 2.0) / 10.0;
        modifiers := modifiers.(ballX := temp, ballY := -modifiers.ballY);
      }
    }

    /**
     * positionBall: from the frame's starting position, the walls (the
     * bottom edge ends the game and the frame goes on), the platform, the
     * bricks, then the move by the final speeds.
     */
    method PositionBall()
      modifies this
      ensures Snapshot() == Session.PositionBall(old(Snapshot()), cfg)
    {
      var x, y := ballX, ballY;
      CheckVerticalWall(y);
      CheckHorizontalWall(x);
      CheckPlatform(x);
      CheckBrickCollisions();
      MoveBall(x, y);
    }

    /** The last step of positionBall: the saved position plus the speeds as they are now. */
    method MoveBall(x: real, y: real)
      requires x == ballX && y == ballY
      modifies this`ballX, this`ballY
      ensures Snapshot() == Move(old(Snapshot()))
    {
      ballX, ballY := x + modifiers.ballX, y + modifiers.ballY;
    }

    /** doAnimate: one frame while a round runs; the session invariant is kept. */
    method Animate()
      modifies this
      ensures Snapshot() == Tick(old(Snapshot()), cfg)
      ensures old(Inv(Snapshot())) ==> Inv(Snapshot())
    {
      ghost var s0 := Snapshot();
      if inProgress {
        PositionPlatform();
        PositionBall();
      }
      if Inv(s0) {
        Properties.TickInv(s0, cfg);
      }
    }

    /** onKeydown: space starts when idle, the arrows set their intent; the invariant is kept. */
    method OnKeydown(k: Key)
      requires k == Space && !inProgress ==> currentLevel < |Catalog|
      modifies this
      ensures Snapshot() == KeyDown(old(Snapshot()), k, cfg)
      ensures old(Inv(Snapshot())) ==> Inv(Snapshot())
    {
      ghost var s0 := Snapshot();
      if k == Space && !inProgress {
        Start();
      }
      if k == LeftArrow {
        leftHeld := true;
      }
      if k == RightArrow {
        rightHeld := true;
      }
      if Inv(s0) {
        Properties.KeyDownInv(s0, k, cfg);
      }
    }

    /** onKeyup: the arrows clear their intent. */
    method OnKeyup(k: Key)
      modifies this
      ensures Snapshot() == KeyUp(old(Snapshot()), k)
      ensures old(Inv(Snapshot())) ==> Inv(Snapshot())
    {
      if k == LeftArrow {
        leftHeld := false;
      }
      if k == RightArrow {
        rightHeld := false;
      }
    }
  }
}
