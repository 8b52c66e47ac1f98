// The game session as a value, and each of the game's operations as a
// function from the state before to the state after. The Game class
// (game.dfy) performs the same operations by updating its fields in place
// and is proved to agree with these functions; the properties of the game
// are proved here.

module Session {
  import opened Geometry
  import opened Levels
  import opened Bricks
  import opened Layout
  import opened Collisions

  /** The message shown over the arena; NoMessage hides it. */
  datatype Message = NoMessage | StartMsg | RoundWin | Won | Lost

  /** Signed per-frame speeds: ball horizontal, ball vertical, platform. */
  datatype Modifiers = Modifiers(ballX: real, ballY: real, platX: real)

  /** The speeds every game starts from and every reset restores. */
  const Base: Modifiers := Modifiers(17.0, 17.0, 25.0)

  /** The keys the game reacts to; every other key is OtherKey. */
  datatype Key = Space | LeftArrow | RightArrow | OtherKey

  /**
   * Everything the game keeps between events: the level index, whether a
   * round is running, the active-brick counter, the speeds, the ball (left
   * and top edges, shown or hidden), the platform's left edge, the two
   * movement intents, the brick list in insertion order, and the message.
   */
  datatype State = State(
    level: nat,
    inProgress: bool,
    bricksActive: int,
    mods: Modifiers,
    ballX: real,
    ballY: real,
    ballShown: bool,
    platX: real,
    leftHeld: bool,
    rightHeld: bool,
    bricks: seq<Brick>,
    message: Message)

  /** The page as loaded: level 0, no bricks, base speeds, the start message. */
  function Initial(): State {
    State(0, false, 0, Base, 0.0, 0.0, false, 0.0, false, false, [], StartMsg)
  }

  /**
   * The session invariant: the level indexes the catalog, the counter is the
   * number of normal and strong bricks in the list, and only strong bricks
   * carry the hit flag.
   */
  predicate Inv(s: State) {
    s.level < |Catalog|
    && s.bricksActive == ActiveCount(s.bricks)
    && forall i :: 0 <= i < |s.bricks| && s.bricks[i].hit ==> s.bricks[i].kind == Strong
  }

  // ---------------------------------------------------------------------
  // Session lifecycle: reset, gameOver, moveToNextLevel, buildBricks, start
  // ---------------------------------------------------------------------

  /** reset: stop, show the message, back to level 0 and base speeds, hide the ball, remove every brick. */
  function Reset(s: State, msg: Message): State {
    s.(inProgress := false, message := msg, level := 0, bricksActive := 0,
       mods := Base, ballShown := false, bricks := [])
  }

  function GameOver(s: State): State {
    Reset(s, Lost)
  }

  /** The speed-up applied on reaching the next level, to the signed speeds. */
  function LevelUp(m: Modifiers): Modifiers {
    Modifiers(m.ballX + 2.0, m.ballY + 2.0, m.platX + 3.0)
  }

  /**
   * moveToNextLevel: stop and advance the level; past the last level the
   * game is won and reset, otherwise the speeds go up, the ball is hidden
   * and the bricks are removed (the counter is left as it is).
   */
  function NextLevel(s: State): State {
    var s1 := s.(message := RoundWin, inProgress := false, level := s.level + 1);
    if s1.level > 2 then Reset(s1, Won)
    else s1.(mods := LevelUp(s1.mods), ballShown := false, bricks := [])
  }

  /** buildBricks: append the level's layout and count its active bricks. */
  function BuildBricks(s: State, lvl: nat, cfg: Config): State
    requires lvl < |Catalog|
  {
    var added := Built(Flatten(Catalog[lvl]), cfg);
    s.(bricks := s.bricks + added, bricksActive := s.bricksActive + ActiveCount(added))
  }

  /**
   * start: hide the message, show the ball, put the platform at 0 and the
   * ball 40 above its top and 12 right of its left edge, build the current
   * level and run.
   */
  function Launch(s: State, cfg: Config): State {
    var s1 := s.(message := NoMessage, ballShown := true, platX := 0.0);
    s1.(ballY := cfg.platformTop - 40.0, ballX := s1.platX + 12.0)
  }

  function Start(s: State, cfg: Config): State
    requires s.level < |Catalog|
  {
    BuildBricks(Launch(s, cfg), s.level, cfg).(inProgress := true)
  }

  // ---------------------------------------------------------------------
  // Brick collisions: checkBrickCollisions
  // ---------------------------------------------------------------------

  /** The ball's box, or none while the ball is hidden. */
  function BallBox(s: State, cfg: Config): Option<Rect> {
    if s.ballShown then Some(BallRect(s.ballX, s.ballY, cfg)) else None
  }

  function FlipY(m: Modifiers): Modifiers {
    m.(ballY := -m.ballY)
  }

  /**
   * The effect of the ball touching brick i, by its kind. Empty: nothing.
   * Strong, not yet hit: marked hit. Strong, already hit: removed.
   * Invulnerable: stays. Any other (normal): removed. Every effect except
   * Empty's negates the ball's vertical speed.
   */
  function Hit(s: State, i: nat): State
    requires i < |s.bricks|
  {
    var b := s.bricks[i];
    if b.kind == Empty then s
    else if b.kind == Strong && !b.hit then
      s.(mods := FlipY(s.mods), bricks := s.bricks[i := b.(hit := true)])
    else if b.kind == Strong && b.hit then
      s.(mods := FlipY(s.mods), bricks := Remove(s.bricks, i), bricksActive := s.bricksActive - 1)
    else if b.kind == Invuln then
      s.(mods := FlipY(s.mods))
    else
      s.(mods := FlipY(s.mods), bricks := Remove(s.bricks, i), bricksActive := s.bricksActive - 1)
  }

  /** The scan: the first brick in list order that the ball touches takes its hit; the rest are not looked at. */
  function Scan(s: State, cfg: Config): State {
    match FirstHit(s.bricks, BallBox(s, cfg), cfg)
    case None => s
    case Some(i) => Hit(s, i)
  }

  /** The win check: a zero counter while a round runs moves to the next level. */
  function WinCheck(s: State): State {
    if s.bricksActive == 0 && s.inProgress then NextLevel(s) else s
  }

  /** checkBrickCollisions: the win check runs before the scan. */
  function CheckBricks(s: State, cfg: Config): State {
    Scan(WinCheck(s), cfg)
  }

  // ---------------------------------------------------------------------
  // Per-frame kinematics: positionBall, positionPlatform, doAnimate
  // ---------------------------------------------------------------------

  /**
   * The vertical wall check of positionBall: below the bottom edge the game
   * is over, above the top edge the vertical speed is negated.
   */
  function BounceY(s: State, cfg: Config): State {
    if ShouldReverseY(s.ballY, cfg) then
      if s.ballY > cfg.height as real - cfg.ballSize then GameOver(s)
      else s.(mods := FlipY(s.mods))
    else s
  }

  /** The horizontal wall check of positionBall: outside the range, the horizontal speed is negated. */
  function BounceX(s: State, cfg: Config): State {
    if ShouldReverseX(s.ballX, cfg) then s.(mods := s.mods.(ballX := -s.mods.ballX)) else s
  }

  /**
   * The wall step of positionBall: the vertical check, then the horizontal
   * one (after a game over, on the freshly reset speeds).
   */
  function Walls(s: State, cfg: Config): State {
    BounceX(BounceY(s, cfg), cfg)
  }

  /** checkPlatformCollisions. */
  predicate PlatformContact(s: State, cfg: Config) {
    Touches(BallBox(s, cfg), PlatformRect(s.platX, cfg))
  }

  /** The horizontal speed after a platform contact: the ball's LEFT edge against the platform's centre, over 10. */
  function Deflection(s: State, cfg: Config): real {
    (s.ballX - s.platX - cfg.platformWidth / 2.0) / 10.0
  }

  /** The platform step of positionBall: on contact, replace the horizontal speed and negate the vertical one. */
  function Paddle(s: State, cfg: Config): State {
    if PlatformContact(s, cfg) then
      s.(mods := Modifiers(Deflection(s, cfg), -s.mods.ballY, s.mods.platX))
    else s
  }

  /** The last step of positionBall: move by the speeds as they are now. */
  function Move(s: State): State {
    s.(ballX := s.ballX + s.mods.ballX, ballY := s.ballY + s.mods.ballY)
  }

  /** positionBall: walls, platform, bricks, then the move, in that order, all from the frame's starting position. */
  function PositionBall(s: State, cfg: Config): State {
    Move(CheckBricks(Paddle(Walls(s, cfg), cfg), cfg))
  }

  /**
   * positionPlatform: move left if asked and the platform is right of the
   * arena's left edge; then move right if asked and the (possibly moved)
   * platform is left of the arena's right edge minus its width. No clamp.
   */
  function PositionPlatform(s: State, cfg: Config): State {
    var p := s.platX;
    var p1 := if s.leftHeld && p > cfg.left then p - s.mods.platX else p;
    var p2 := if s.rightHeld && p1 < Right(cfg) - cfg.platformWidth then p1 + s.mods.platX else p1;
    s.(platX := p2)
  }

  /** doAnimate: one frame, only while a round is running. */
  function Tick(s: State, cfg: Config): State {
    if s.inProgress then PositionBall(PositionPlatform(s, cfg), cfg) else s
  }

  // ---------------------------------------------------------------------
  // Input: onKeydown, onKeyup
  // ---------------------------------------------------------------------

  /** onKeydown: space starts a round when none is running; the arrows set an intent. */
  function KeyDown(s: State, k: Key, cfg: Config): State
    requires k == Space && !s.inProgress ==> s.level < |Catalog|
  {
    var s1 := if k == Space && !s.inProgress then Start(s, cfg) else s;
    var s2 := if k == LeftArrow then s1.(leftHeld := true) else s1;
    if k == RightArrow then s2.(rightHeld := true) else s2
  }

  /** onKeyup: the arrows clear their intent. */
  function KeyUp(s: State, k: Key): State {
    var s1 := if k == LeftArrow then s.(leftHeld := false) else s;
    if k == RightArrow then s1.(rightHeld := false) else s1
  }
}
