/** The two paddle controllers: the key handling of `process_input` and the
    ball-tracking opponent of `ai_move`. */
module Controls {
  import opened Physics

  /** The keys `PongGame` reacts to (the `controls_*` attributes and quit). */
  const QuitKey: string := "q"
  const P1Up: string := "w"
  const P1Down: string := "s"
  const P2Up: string := "\U{1B}[A"
  const P2Down: string := "\U{1B}[B"

  predicate IsControl(key: string) {
    key == QuitKey || key == P1Up || key == P1Down || key == P2Up || key == P2Down
  }

  /** One paddle step under a guarded bound: up while above row 0, down while
      the paddle's bottom is above the last row, otherwise no move. */
  function Nudge(c: Config, y: int, up: bool, down: bool): int
  {
    if up && y > 0 then y - 1
    else if down && y < c.height - c.paddleSize then y + 1
    else y
  }

  /** `process_input` for the key `getch` returned. */
  function ApplyKey(c: Config, g: Game, key: string): Game
  {
    var quit := if key == QuitKey then g.(gameOver := true) else g;
    var left := quit.(p1y := Nudge(c, g.p1y, key == P1Up, key == P1Down));
    if c.mode == Local then left.(p2y := Nudge(c, g.p2y, key == P2Up, key == P2Down))
    else left
  }

  /** `ai_move`: the second paddle follows the ball's row. */
  function Track(c: Config, g: Game): Game
  {
    if g.ballY < g.p2y then g.(p2y := g.p2y - 1)
    else if g.ballY > g.p2y + c.paddleSize - 1 then g.(p2y := g.p2y + 1)
    else g
  }

  /** A key moves each paddle by at most one row, keeps a paddle that was in
      range in range, moves paddle 2 only in local mode, and sets the game-over
      flag exactly for `q`; the ball, the scores and the clock stay. */
  lemma ApplyKeyBounds(c: Config, g: Game, key: string)
    ensures var r := ApplyKey(c, g, key);
      && -1 <= r.p1y - g.p1y <= 1 && -1 <= r.p2y - g.p2y <= 1
      && (PaddleInRange(c, g.p1y) ==> PaddleInRange(c, r.p1y))
      && (PaddleInRange(c, g.p2y) ==> PaddleInRange(c, r.p2y))
      && (c.mode != Local ==> r.p2y == g.p2y)
      && r.gameOver == (g.gameOver || key == QuitKey)
      && r.(p1y := g.p1y, p2y := g.p2y, gameOver := g.gameOver) == g
  {
  }

  /** What the keys do: `w` and `s` move paddle 1 up or down one row when its
      guard allows, the arrow keys do the same for paddle 2 in local mode,
      and otherwise the paddle stays. */
  lemma ApplyKeySteps(c: Config, g: Game, key: string)
    ensures var r := ApplyKey(c, g, key);
      && (key == P1Up && g.p1y > 0 ==> r.p1y == g.p1y - 1)
      && (key == P1Down && g.p1y < c.height - c.paddleSize ==> r.p1y == g.p1y + 1)
      && ((!(key == P1Up && g.p1y > 0) && !(key == P1Down && g.p1y < c.height - c.paddleSize))
          ==> r.p1y == g.p1y)
      && (c.mode == Local && key == P2Up && g.p2y > 0 ==> r.p2y == g.p2y - 1)
      && (c.mode == Local && key == P2Down && g.p2y < c.height - c.paddleSize ==> r.p2y == g.p2y + 1)
      && ((!(key == P2Up && g.p2y > 0) && !(key == P2Down && g.p2y < c.height - c.paddleSize))
          ==> r.p2y == g.p2y)
  {
  }

  /** A key that is no control changes nothing, and `q` only sets the flag. */
  lemma ApplyOtherKeys(c: Config, g: Game, key: string)
    ensures !IsControl(key) ==> ApplyKey(c, g, key) == g
    ensures key == QuitKey ==> ApplyKey(c, g, key) == g.(gameOver := true)
  {
  }

  /** The paddle moves by one row toward the ball when the ball's row is
      outside its span, stays when the ball is level with it, and never
      leaves the board while the ball is on it, although nothing clamps it. */
  lemma TrackFollowsBall(c: Config, g: Game)
    requires ValidConfig(c)
    ensures var r := Track(c, g);
      && r == g.(p2y := r.p2y)
      && (g.ballY < g.p2y ==> r.p2y == g.p2y - 1)
      && (g.ballY > g.p2y + c.paddleSize - 1 ==> r.p2y == g.p2y + 1)
      && (Hits(g.p2y, g.ballY, c.paddleSize) ==> r.p2y == g.p2y)
      && (PaddleInRange(c, g.p2y) && 0 <= g.ballY <= c.height - 1 ==> PaddleInRange(c, r.p2y))
  {
  }

  /** The tracked paddle never ends farther from the ball's row than it was. */
  lemma TrackNeverRecedes(c: Config, g: Game)
    requires ValidConfig(c)
    ensures Gap(c, Track(c, g).p2y, g.ballY) <= Gap(c, g.p2y, g.ballY)
    ensures Gap(c, g.p2y, g.ballY) > 0 ==> Gap(c, Track(c, g).p2y, g.ballY) == Gap(c, g.p2y, g.ballY) - 1
  {
  }

  /** How many rows the paddle with top `y` is away from covering row `ballY`. */
  function Gap(c: Config, y: int, ballY: int): nat
  {
    if ballY < y then y - ballY
    else if ballY > y + c.paddleSize - 1 then ballY - (y + c.paddleSize - 1)
    else 0
  }

}
