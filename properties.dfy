// What the session operations guarantee: the counter invariant, the brick
// hit table, the order of the ball step, the platform step, and the
// lifecycle transitions.

module Properties {
  import opened Geometry
  import opened Levels
  import opened Bricks
  import opened Layout
  import opened Collisions
  import opened Session

  // ---------------------------------------------------------------------
  // The counter invariant
  // ---------------------------------------------------------------------

  lemma InitialInv()
    ensures Inv(Initial())
  {
  }

  lemma ResetInv(s: State, msg: Message)
    ensures Inv(Reset(s, msg))
    ensures Reset(s, msg).bricks == [] && Reset(s, msg).bricksActive == 0
  {
  }

  /**
   * Building a level keeps the invariant; the counter grows by the laid-out
   * cells holding 1 or 2.
   */
  lemma BuildBricksInv(s: State, lvl: nat, cfg: Config)
    requires Inv(s) && lvl < |Catalog|
    ensures Inv(BuildBricks(s, lvl, cfg))
    ensures var cells := Flatten(Catalog[lvl]);
      BuildBricks(s, lvl, cfg).bricksActive == s.bricksActive + CountActiveValues(cells[..Kept(cells, cfg)])
  {
    var cells := Flatten(Catalog[lvl]);
    var added := Built(cells, cfg);
    ActiveCountAppend(s.bricks, added);
    BuildCount(cells, cfg);
    BuiltUnhit(cells, cfg);
  }

  /** Building the starting level into an empty list, with nothing dropped, counts 20. */
  lemma StartingLevelCount(s: State, cfg: Config)
    requires s.bricks == [] && s.bricksActive == 0 && cfg.height >= 3960
    ensures BuildBricks(s, 0, cfg).bricksActive == 20
  {
    StartingLevelBuild(cfg);
  }

  lemma StartInv(s: State, cfg: Config)
    requires Inv(s)
    ensures Inv(Start(s, cfg))
  {
    BuildBricksInv(Launch(s, cfg), s.level, cfg);
  }

  /** A hit keeps the invariant. */
  lemma ScanInv(s: State, cfg: Config)
    requires Inv(s)
    ensures Inv(Scan(s, cfg))
  {
    match FirstHit(s.bricks, BallBox(s, cfg), cfg)
    case None =>
    case Some(i) => HitInv(s, i);
  }

  /** Whatever the kind of the brick hit, its effect keeps the invariant. */
  lemma HitInv(s: State, i: nat)
    requires Inv(s) && i < |s.bricks|
    ensures Inv(Hit(s, i))
  {
    var b := s.bricks[i];
    if b.kind == Strong && !b.hit {
      MarkKeepsInv(s, i);
    } else if b.kind != Empty && b.kind != Invuln {
      RemoveKeepsInv(s, i);
    }
  }

  /** Marking a strong brick as hit keeps the invariant. */
  lemma MarkKeepsInv(s: State, i: nat)
    requires Inv(s) && i < |s.bricks| && s.bricks[i].kind == Strong
    ensures Inv(s.(bricks := s.bricks[i := s.bricks[i].(hit := true)]))
  {
    ReplaceCount(s.bricks, i, s.bricks[i].(hit := true));
  }

  /** Removing an active brick and lowering the counter keeps the invariant. */
  lemma RemoveKeepsInv(s: State, i: nat)
    requires Inv(s) && i < |s.bricks| && IsActive(s.bricks[i])
    ensures Inv(s.(bricks := Remove(s.bricks, i), bricksActive := s.bricksActive - 1))
  {
    RemoveCount(s.bricks, i);
    var r := Remove(s.bricks, i);
    forall j | 0 <= j < |r| && r[j].hit ensures r[j].kind == Strong {
      if j >= i {
        assert r[j] == s.bricks[j + 1];
      }
    }
  }

  /** Clearing a level keeps the invariant when, as at its one call site, the counter is zero. */
  lemma NextLevelInv(s: State)
    requires Inv(s) && s.bricksActive == 0
    ensures Inv(NextLevel(s))
  {
  }

  lemma CheckBricksInv(s: State, cfg: Config)
    requires Inv(s)
    ensures Inv(CheckBricks(s, cfg))
  {
    ScanInv(WinCheck(s), cfg);
  }

  lemma TickInv(s: State, cfg: Config)
    requires Inv(s)
    ensures Inv(Tick(s, cfg))
  {
    if s.inProgress {
      var p := PositionPlatform(s, cfg);
      WallsInv(p, cfg);
      var q := Paddle(Walls(p, cfg), cfg);
      CheckBricksInv(q, cfg);
    }
  }

  /** The wall step keeps the invariant, a game over included. */
  lemma WallsInv(s: State, cfg: Config)
    requires Inv(s)
    ensures Inv(Walls(s, cfg))
  {
    if ShouldReverseY(s.ballY, cfg) && s.ballY > cfg.height as real - cfg.ballSize {
      ResetInv(s, Lost);
    }
  }

  lemma KeyDownInv(s: State, k: Key, cfg: Config)
    requires Inv(s)
    ensures Inv(KeyDown(s, k, cfg))
  {
    if k == Space && !s.inProgress {
      StartInv(s, cfg);
    }
  }

  lemma KeyUpInv(s: State, k: Key)
    requires Inv(s)
    ensures Inv(KeyUp(s, k))
  {
  }

  // ---------------------------------------------------------------------
  // The brick hit table
  // ---------------------------------------------------------------------

  /** No brick touched: nothing changes. */
  lemma ScanMiss(s: State, cfg: Config)
    requires forall j :: 0 <= j < |s.bricks| ==> !HitsBrick(BallBox(s, cfg), s.bricks[j], cfg)
    ensures Scan(s, cfg) == s
  {
  }

  /** The first touched brick is empty: the scan stops there and nothing changes. */
  lemma ScanEmpty(s: State, cfg: Config, i: nat)
    requires FirstHit(s.bricks, BallBox(s, cfg), cfg) == Some(i) && s.bricks[i].kind == Empty
    ensures Scan(s, cfg) == s
  {
  }

  /** The first touched brick is normal: it is removed, the counter drops by one, the ball turns vertically. */
  lemma ScanNormal(s: State, cfg: Config, i: nat)
    requires Inv(s)
    requires FirstHit(s.bricks, BallBox(s, cfg), cfg) == Some(i) && s.bricks[i].kind == Normal
    ensures var r := Scan(s, cfg);
      r == s.(bricks := Remove(s.bricks, i), bricksActive := s.bricksActive - 1, mods := FlipY(s.mods))
      && r.bricksActive == ActiveCount(r.bricks)
  {
    RemoveCount(s.bricks, i);
  }

  /** The first touched brick is strong and unhit: it is marked hit, the counter stays, the ball turns. */
  lemma ScanStrongFresh(s: State, cfg: Config, i: nat)
    requires FirstHit(s.bricks, BallBox(s, cfg), cfg) == Some(i)
    requires s.bricks[i].kind == Strong && !s.bricks[i].hit
    ensures var r := Scan(s, cfg);
      r == s.(bricks := s.bricks[i := s.bricks[i].(hit := true)], mods := FlipY(s.mods))
      && ActiveCount(r.bricks) == ActiveCount(s.bricks)
  {
    ReplaceCount(s.bricks, i, s.bricks[i].(hit := true));
  }

  /** The first touched brick is strong and already hit: it is removed, the counter drops by one, the ball turns. */
  lemma ScanStrongHit(s: State, cfg: Config, i: nat)
    requires Inv(s)
    requires FirstHit(s.bricks, BallBox(s, cfg), cfg) == Some(i)
    requires s.bricks[i].kind == Strong && s.bricks[i].hit
    ensures var r := Scan(s, cfg);
      r == s.(bricks := Remove(s.bricks, i), bricksActive := s.bricksActive - 1, mods := FlipY(s.mods))
      && r.bricksActive == ActiveCount(r.bricks)
  {
    RemoveCount(s.bricks, i);
  }

  /** The first touched brick is invulnerable: it stays, the ball turns. */
  lemma ScanInvuln(s: State, cfg: Config, i: nat)
    requires FirstHit(s.bricks, BallBox(s, cfg), cfg) == Some(i) && s.bricks[i].kind == Invuln
    ensures Scan(s, cfg) == s.(mods := FlipY(s.mods))
  {
  }

  /** A strong brick needs two hits: the second hit removes that brick, keeps the others in order, and lowers the counter by exactly one. */
  lemma StrongTakesTwoHits(s: State, cfg: Config, i: nat)
    requires Inv(s)
    requires FirstHit(s.bricks, BallBox(s, cfg), cfg) == Some(i)
    requires s.bricks[i].kind == Strong && !s.bricks[i].hit
    ensures var r := Scan(s, cfg);
      FirstHit(r.bricks, BallBox(r, cfg), cfg) == Some(i)
      && var r2 := Scan(r, cfg);
      r2.bricks == Remove(s.bricks, i) && r2.bricksActive == s.bricksActive - 1 && r2.mods == s.mods
  {
    var r := Scan(s, cfg);
    ScanStrongFresh(s, cfg, i);
    assert forall j :: 0 <= j < |s.bricks| ==> BrickRect(r.bricks[j], cfg) == BrickRect(s.bricks[j], cfg);
    FirstHitUnique(r.bricks, BallBox(r, cfg), cfg, i);
    ScanStrongHit(r, cfg, i);
    assert Remove(r.bricks, i) == Remove(s.bricks, i);
  }

  /** Bricks only ever turn the ball vertically: its horizontal and the platform's speed are untouched. */
  lemma ScanKeepsHorizontal(s: State, cfg: Config)
    ensures Scan(s, cfg).mods.ballX == s.mods.ballX
    ensures Scan(s, cfg).mods.platX == s.mods.platX
    ensures Scan(s, cfg).mods.ballY == s.mods.ballY || Scan(s, cfg).mods.ballY == -s.mods.ballY
  {
  }

  /** With no brick touched and no win pending, checkBrickCollisions changes nothing. */
  lemma CheckBricksNothingElse(s: State, cfg: Config)
    requires !(s.bricksActive == 0 && s.inProgress)
    requires FirstHit(s.bricks, BallBox(s, cfg), cfg) == None
    ensures CheckBricks(s, cfg) == s
  {
  }

  /** A zero counter while running advances the level before any brick is scanned. */
  lemma WinCheckFirst(s: State, cfg: Config)
    requires s.bricksActive == 0 && s.inProgress
    ensures CheckBricks(s, cfg) == NextLevel(s)
  {
  }

  /**
   * A hit that clears the last active brick does not end the round in the
   * same check: the round keeps running on the same level, and the next
   * check acts on the zero counter.
   */
  lemma ClearedActedOnNextCheck(s: State, cfg: Config)
    requires Inv(s) && s.inProgress && s.bricksActive > 0
    ensures var r := CheckBricks(s, cfg);
      r.inProgress && r.level == s.level
      && (r.bricksActive == 0 ==> CheckBricks(r, cfg) == NextLevel(r))
  {
  }

  // ---------------------------------------------------------------------
  // The ball step
  // ---------------------------------------------------------------------

  /**
   * Below the bottom edge the game is lost and reset, and the rest of the
   * frame still runs: the fresh horizontal speed can be negated by the
   * side-wall check, and the hidden ball still moves.
   */
  lemma BallLost(s: State, cfg: Config)
    requires s.ballY > cfg.height as real - cfg.ballSize
    ensures var r := PositionBall(s, cfg);
      !r.inProgress && r.level == 0 && r.bricks == [] && r.bricksActive == 0
      && r.message == Lost && !r.ballShown
      && r.mods == (if ShouldReverseX(s.ballX, cfg) then Base.(ballX := -17.0) else Base)
      && r.ballX == s.ballX + r.mods.ballX && r.ballY == s.ballY + 17.0
  {
  }

  /** Away from the bottom edge the walls only change signs: top edge flips vertical, sides flip horizontal. */
  lemma WallsBounce(s: State, cfg: Config)
    requires s.ballY <= cfg.height as real - cfg.ballSize
    ensures Walls(s, cfg) == s.(mods := Modifiers(
      if ShouldReverseX(s.ballX, cfg) then -s.mods.ballX else s.mods.ballX,
      if s.ballY < 0.0 then -s.mods.ballY else s.mods.ballY,
      s.mods.platX))
  {
  }

  /** A platform contact replaces the horizontal speed, whatever it was, and negates the vertical one. */
  lemma PaddleOverrides(s: State, cfg: Config)
    requires PlatformContact(s, cfg)
    ensures Paddle(s, cfg).mods == Modifiers(Deflection(s, cfg), -s.mods.ballY, s.mods.platX)
  {
  }

  /**
   * Because the deflection measures from the ball's left edge, a contact
   * sends the ball at most platformWidth / 20 to the right but up to
   * (ballSize + platformWidth / 2) / 10 to the left: with a 12 ball and
   * a 160 platform, between -9.2 and 8.
   */
  lemma DeflectionRange(s: State, cfg: Config)
    requires PlatformContact(s, cfg)
    ensures -(cfg.ballSize + cfg.platformWidth / 2.0) / 10.0 <= Deflection(s, cfg) <= cfg.platformWidth / 20.0
  {
  }

  function Abs(r: real): real {
    if r < 0.0 then -r else r
  }

  /**
   * Without a loss, a platform contact or a level change in the frame, the
   * ball's speeds keep their magnitude: only their signs can change.
   */
  lemma SpeedKeptBetweenEvents(s: State, cfg: Config)
    requires s.ballY <= cfg.height as real - cfg.ballSize
    requires !PlatformContact(Walls(s, cfg), cfg)
    requires !(s.bricksActive == 0 && s.inProgress)
    ensures var r := PositionBall(s, cfg);
      Abs(r.mods.ballX) == Abs(s.mods.ballX) && Abs(r.mods.ballY) == Abs(s.mods.ballY)
      && r.mods.platX == s.mods.platX
  {
    var w := Walls(s, cfg);
    assert Abs(w.mods.ballX) == Abs(s.mods.ballX) && Abs(w.mods.ballY) == Abs(s.mods.ballY);
    assert w.mods.platX == s.mods.platX && w.bricksActive == s.bricksActive && w.inProgress == s.inProgress;
    assert Paddle(w, cfg) == w;
    ScanKeepsHorizontal(w, cfg);
  }

  // ---------------------------------------------------------------------
  // The platform step
  // ---------------------------------------------------------------------

  /**
   * The platform moves by -plat_x, 0 or +plat_x and nothing else changes;
   * with no intent it stays, with both intents the two moves cancel when
   * both guards pass.
   */
  lemma PlatformStep(s: State, cfg: Config)
    ensures var r := PositionPlatform(s, cfg);
      var d := r.platX - s.platX;
      r == s.(platX := r.platX)
      && (d == -s.mods.platX || d == 0.0 || d == s.mods.platX)
      && (!s.leftHeld && !s.rightHeld ==> d == 0.0)
      && (s.leftHeld && !s.rightHeld ==> (d == -s.mods.platX <==> s.platX > cfg.left) || s.mods.platX == 0.0)
      && (!s.leftHeld && s.rightHeld ==>
            (d == s.mods.platX <==> s.platX < Right(cfg) - cfg.platformWidth) || s.mods.platX == 0.0)
  {
  }

  /** The right-hand guard reads the position after a left move: it is not re-clamped. */
  lemma PlatformGuardsAfterLeftMove(s: State, cfg: Config)
    requires s.leftHeld && s.rightHeld && s.platX > cfg.left
    ensures PositionPlatform(s, cfg).platX ==
      if s.platX - s.mods.platX < Right(cfg) - cfg.platformWidth then s.platX else s.platX - s.mods.platX
  {
  }

  lemma TickIdle(s: State, cfg: Config)
    requires !s.inProgress
    ensures Tick(s, cfg) == s
  {
  }

  // ---------------------------------------------------------------------
  // The lifecycle
  // ---------------------------------------------------------------------

  lemma GameOverResets(s: State)
    ensures GameOver(s) == s.(inProgress := false, message := Lost, level := 0, bricksActive := 0,
                              mods := Base, ballShown := false, bricks := [])
  {
  }

  /** Clearing the last level wins the game and resets it. */
  lemma NextLevelAfterLast(s: State)
    requires s.level >= 2
    ensures var r := NextLevel(s);
      r == s.(inProgress := false, message := Won, level := 0, bricksActive := 0,
              mods := Base, ballShown := false, bricks := [])
  {
  }

  /** Clearing another level stops the round, advances the level and speeds up, and waits for space. */
  lemma NextLevelOther(s: State)
    requires s.level < 2
    ensures var r := NextLevel(s);
      r == s.(inProgress := false, message := RoundWin, level := s.level + 1,
              mods := Modifiers(s.mods.ballX + 2.0, s.mods.ballY + 2.0, s.mods.platX + 3.0),
              ballShown := false, bricks := [])
  {
  }

  /** The speed-up adds to signed speeds, so a ball moving left at more than 1 slows down. */
  lemma LevelUpCanSlow(m: Modifiers)
    requires m.ballX < -1.0
    ensures Abs(LevelUp(m).ballX) < Abs(m.ballX)
  {
  }

  /** Space while idle starts the current level: running, its bricks appended, its count added. */
  lemma SpaceStarts(s: State, cfg: Config)
    requires !s.inProgress && s.level < |Catalog|
    ensures var r := KeyDown(s, Space, cfg);
      var added := Built(Flatten(Catalog[s.level]), cfg);
      r.inProgress && r.ballShown && r.message == NoMessage && r.level == s.level
      && r.bricks == s.bricks + added && r.bricksActive == s.bricksActive + ActiveCount(added)
      && r.platX == 0.0 && r.ballX == 12.0 && r.ballY == cfg.platformTop - 40.0 && r.mods == s.mods
  {
  }

  /** Space during a round does nothing. */
  lemma SpaceWhileRunning(s: State, cfg: Config)
    requires s.inProgress
    ensures KeyDown(s, Space, cfg) == s
  {
  }

  /** The arrows only set and clear their own intent. */
  lemma ArrowsSetIntent(s: State, cfg: Config)
    ensures KeyDown(s, LeftArrow, cfg) == s.(leftHeld := true)
    ensures KeyDown(s, RightArrow, cfg) == s.(rightHeld := true)
    ensures KeyUp(s, LeftArrow) == s.(leftHeld := false)
    ensures KeyUp(s, RightArrow) == s.(rightHeld := false)
    ensures KeyDown(s, OtherKey, cfg) == s && KeyUp(s, OtherKey) == s
  {
  }
}
