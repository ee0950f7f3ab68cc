/** The game state of `PongGame` and its ball physics: `reset_ball` and the
    time-gated `move_ball` with wall bounces, the paddle hit test and scoring. */
module Physics {

  /** The four values `PongGame.mode` takes. */
  datatype Mode = Single | Local | OnlineHost | OnlineClient
  {
    /** `mode.startswith("online")` */
    predicate IsOnline() {
      this == OnlineHost || this == OnlineClient
    }

    /** The string tag the game is created with and reports results under. */
    function Tag(): string {
      match this
      case Single => "single"
      case Local => "local"
      case OnlineHost => "online_host"
      case OnlineClient => "online_client"
    }
  }

  /** What is fixed for a session: `WIDTH`, `HEIGHT`, `paddle_size`,
      `ball_speed` (seconds between ball steps), `win_score` and the mode. */
  datatype Config = Config(width: int, height: int, paddleSize: int, ballSpeed: real, winScore: int, mode: Mode)

  /** The geometry every session has: at least 30 by 10 cells, a paddle that
      fits the height, a positive tick interval and win score. */
  predicate ValidConfig(c: Config) {
    c.width >= 30 && c.height >= 10 && 1 <= c.paddleSize <= c.height
    && c.ballSpeed > 0.0 && c.winScore >= 1
  }

  /** The fields of `PongGame` that change during a session. */
  datatype Game = Game(
    p1y: int, p2y: int,
    ballX: int, ballY: int, vx: int, vy: int,
    score1: int, score2: int,
    lastMove: real, gameOver: bool, opponentWins: int)

  /** A value `random.choice([-1, 1])` can return. */
  predicate IsDirection(d: int) {
    d == -1 || d == 1
  }

  /** A paddle top row that keeps the whole paddle on the board. */
  predicate PaddleInRange(c: Config, y: int) {
    0 <= y <= c.height - c.paddleSize
  }

  /** The ball is between the two paddle columns and on the board, moves
      diagonally, and heads away from any wall or paddle column it is on. */
  predicate BallInv(c: Config, g: Game) {
    ColumnInv(c, g) && RowInv(c, g)
  }

  /** The horizontal half of `BallInv`. */
  predicate ColumnInv(c: Config, g: Game) {
    IsDirection(g.vx) && 2 <= g.ballX <= c.width - 3
    && (g.ballX == 2 ==> g.vx == 1) && (g.ballX == c.width - 3 ==> g.vx == -1)
  }

  /** The vertical half of `BallInv`. */
  predicate RowInv(c: Config, g: Game) {
    IsDirection(g.vy) && 0 <= g.ballY <= c.height - 1
    && (g.ballY == 0 ==> g.vy == 1) && (g.ballY == c.height - 1 ==> g.vy == -1)
  }

  /** The half-open hit test `paddleY <= ballY < paddleY + size`. */
  predicate Hits(paddleY: int, ballY: int, size: int) {
    paddleY <= ballY < paddleY + size
  }

  /** The state `PongGame.__init__` sets up at time `now`: both paddles and
      the ball centred, no score, the ball heading along the two picks. */
  function Opening(c: Config, now: real, vxPick: int, vyPick: int): Game
  {
    var mid := (c.height - c.paddleSize) / 2;
    Game(mid, mid, c.width / 2, c.height / 2, vxPick, vyPick, 0, 0, now, false, 0)
  }

  /** `reset_ball`: the ball back to the centre with the two picked directions. */
  function Recentre(c: Config, g: Game, vxPick: int, vyPick: int): Game
  {
    g.(ballX := c.width / 2, ballY := c.height / 2, vx := vxPick, vy := vyPick)
  }

  /** `move_ball` at clock reading `now`; the picks are what `reset_ball`
      draws if a paddle misses. */
  function Advance(c: Config, g: Game, now: real, vxPick: int, vyPick: int): Game
  {
    if !Due(c, g, now) then g
    else
      var x := g.ballX + g.vx;
      var y := g.ballY + g.vy;
      var moved := g.(lastMove := now, ballX := x, ballY := y,
                      vy := if y <= 0 || y >= c.height - 1 then -g.vy else g.vy);
      if x == 2 then
        if Hits(g.p1y, y, c.paddleSize) then moved.(vx := -g.vx)
        else Recentre(c, moved.(score2 := g.score2 + 1), vxPick, vyPick)
      else if x == c.width - 3 then
        if Hits(g.p2y, y, c.paddleSize) then moved.(vx := -g.vx)
        else Recentre(c, moved.(score1 := g.score1 + 1), vxPick, vyPick)
      else moved
  }

  /** True when `Advance` at `now` takes a step (the tick interval has passed). */
  predicate Due(c: Config, g: Game, now: real) {
    now - g.lastMove >= c.ballSpeed
  }

  /** A fresh game starts with the ball and both paddles in range. */
  lemma OpeningInRange(c: Config, now: real, vxPick: int, vyPick: int)
    requires ValidConfig(c) && IsDirection(vxPick) && IsDirection(vyPick)
    ensures var g := Opening(c, now, vxPick, vyPick);
      BallInv(c, g) && PaddleInRange(c, g.p1y) && PaddleInRange(c, g.p2y)
  {
  }

  /** Before the tick interval has passed nothing changes; once it has, the
      clock is recorded and the paddles, the flags and the opponent's win
      count stay as they were. */
  lemma AdvanceGate(c: Config, g: Game, now: real, vxPick: int, vyPick: int)
    ensures !Due(c, g, now) ==> Advance(c, g, now, vxPick, vyPick) == g
    ensures Due(c, g, now) ==>
      var r := Advance(c, g, now, vxPick, vyPick);
      r.lastMove == now && r.p1y == g.p1y && r.p2y == g.p2y
      && r.gameOver == g.gameOver && r.opponentWins == g.opponentWins
  {
  }

  /** The ball stays between the paddle columns and on the board, heading
      away from any wall or paddle column it touches. */
  lemma AdvanceKeepsBall(c: Config, g: Game, now: real, vxPick: int, vyPick: int)
    requires ValidConfig(c) && BallInv(c, g)
    requires IsDirection(vxPick) && IsDirection(vyPick)
    ensures BallInv(c, Advance(c, g, now, vxPick, vyPick))
  {
    AdvanceKeepsRows(c, g, now, vxPick, vyPick);
    AdvanceKeepsColumns(c, g, now, vxPick, vyPick);
  }

  /** Wall bounces keep the ball on the board, heading away from the wall it is on. */
  lemma AdvanceKeepsRows(c: Config, g: Game, now: real, vxPick: int, vyPick: int)
    requires ValidConfig(c) && BallInv(c, g)
    requires IsDirection(vyPick)
    ensures RowInv(c, Advance(c, g, now, vxPick, vyPick))
  {
  }

  /** Paddle hits and re-centring keep the ball between the paddle columns. */
  lemma AdvanceKeepsColumns(c: Config, g: Game, now: real, vxPick: int, vyPick: int)
    requires ValidConfig(c) && BallInv(c, g)
    requires IsDirection(vxPick)
    ensures ColumnInv(c, Advance(c, g, now, vxPick, vyPick))
  {
  }

  /** Scoring: a step raises at most one score, by exactly one. The left
      player's miss is the ball reaching column 2 outside the half-open span
      of paddle 1 and credits score2; the right player's miss at column
      width - 3 credits score1; either miss re-centres the ball with the
      picked directions, while a hit only reverses the horizontal direction. */
  lemma AdvanceScores(c: Config, g: Game, now: real, vxPick: int, vyPick: int)
    requires ValidConfig(c) && BallInv(c, g)
    ensures var r := Advance(c, g, now, vxPick, vyPick);
      var x, y := g.ballX + g.vx, g.ballY + g.vy;
      && r.score1 >= g.score1 && r.score2 >= g.score2
      && r.score1 + r.score2 <= g.score1 + g.score2 + 1
      && (r.score2 == g.score2 + 1 <==> Due(c, g, now) && x == 2 && !Hits(g.p1y, y, c.paddleSize))
      && (r.score1 == g.score1 + 1 <==> Due(c, g, now) && x == c.width - 3 && !Hits(g.p2y, y, c.paddleSize))
      && (r.score1 + r.score2 > g.score1 + g.score2 ==>
            r.ballX == c.width / 2 && r.ballY == c.height / 2 && r.vx == vxPick && r.vy == vyPick)
      && (Due(c, g, now) && r.score1 + r.score2 == g.score1 + g.score2 ==>
            r.ballX == x && r.ballY == y
            && r.vx == (if x == 2 || x == c.width - 3 then -g.vx else g.vx))
  {
  }

  /** A step that scores nothing moves the ball exactly one cell along each axis. */
  lemma AdvanceMovesOneCell(c: Config, g: Game, now: real, vxPick: int, vyPick: int)
    requires ValidConfig(c) && BallInv(c, g) && Due(c, g, now)
    ensures var r := Advance(c, g, now, vxPick, vyPick);
      r.score1 + r.score2 == g.score1 + g.score2 ==>
        (r.ballX - g.ballX == 1 || r.ballX - g.ballX == -1)
        && (r.ballY - g.ballY == 1 || r.ballY - g.ballY == -1)
  {
    AdvanceScores(c, g, now, vxPick, vyPick);
  }

  /** Wall bounce: the step that reaches the top or bottom row turns the ball
      around; one that leaves it in the interior keeps its vertical direction. */
  lemma AdvanceBounces(c: Config, g: Game, now: real, vxPick: int, vyPick: int)
    requires ValidConfig(c) && BallInv(c, g) && Due(c, g, now)
    ensures var r := Advance(c, g, now, vxPick, vyPick);
      r.score1 + r.score2 == g.score1 + g.score2 ==>
        (r.vy == -g.vy <==> r.ballY == 0 || r.ballY == c.height - 1)
  {
    AdvanceScores(c, g, now, vxPick, vyPick);
  }

}
