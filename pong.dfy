/** `PongGame`: the session object whose methods update its fields in place,
    each proved against the pure step it performs. */
module Pong {
  import opened Wrappers
  import opened Wire
  import opened Physics
  import opened Controls
  import opened Sync
  import opened Session
  import opened Profile

  /** The class constants `WIN_SCORE`, `PADDLE_SIZE`, `BALL_SPEED`. */
  const WinScore := 5
  const PaddleSize := 4
  const BallSpeed: real := 0.08

  /** The board without fitting to the terminal, and the least fitted board. */
  const DefaultWidth := 60
  const DefaultHeight := 20
  const MinWidth := 30
  const MinHeight := 10

  function Max(a: int, b: int): int {
    if a >= b then a else b
  }

  class PongGame {
    const mode: Mode
    const user: UserData
    const width: int
    const height: int
    const paddleSize: int
    const ballSpeed: real
    const winScore: int

    var p1y: int
    var p2y: int
    var ballX: int
    var ballY: int
    var ballVx: int
    var ballVy: int
    var score1: int
    var score2: int
    var lastMove: real
    var gameOver: bool
    var opponentWins: int

    /** The session's fixed settings. */
    function Cfg(): Config {
      Config(width, height, paddleSize, ballSpeed, winScore, mode)
    }

    /** The fields the game changes, as one value. */
    function View(): Game
      reads this
    {
      Game(p1y, p2y, ballX, ballY, ballVx, ballVy, score1, score2, lastMove, gameOver, opponentWins)
    }

    /** `PongGame.__init__`: `columns` and `lines` are the terminal size,
        `now` the clock and the picks the ball's first direction. */
    constructor (mode: Mode, user: UserData, fitTerminal: bool, columns: int, lines: int,
                 now: real, vxPick: int, vyPick: int)
      ensures this.mode == mode && this.user == user
      ensures width == if fitTerminal then Max(MinWidth, columns - 10) else DefaultWidth
      ensures height == if fitTerminal then Max(MinHeight, lines - 10) else DefaultHeight
      ensures paddleSize == PaddleSize && ballSpeed == BallSpeed && winScore == WinScore
      ensures ValidConfig(Cfg())
      ensures View() == Opening(Cfg(), now, vxPick, vyPick)
    {
      this.mode := mode;
      this.user := user;
      if fitTerminal {
        width := Max(MinWidth, columns - 10);
        height := Max(MinHeight, lines - 10);
      } else {
        width := DefaultWidth;
        height := DefaultHeight;
      }
      paddleSize := PaddleSize;
      ballSpeed := BallSpeed;
      winScore := WinScore;
      opponentWins := 0;
      new;
      p1y := (height - paddleSize) / 2;
      p2y := p1y;
      ballX := width / 2;
      ballY := height / 2;
      ballVx := vxPick;
      ballVy := vyPick;
      score1 := 0;
      score2 := 0;
      lastMove := now;
      gameOver := false;
    }

    /** `reset_ball` */
    method ResetBall(vxPick: int, vyPick: int)
      modifies this
      ensures View() == Recentre(Cfg(), old(View()), vxPick, vyPick)
    {
      ballX := width / 2;
      ballY := height / 2;
      ballVx := vxPick;
      ballVy := vyPick;
    }

    /** `move_ball` at clock reading `now`, with the picks a reset would draw. */
    method MoveBall(now: real, vxPick: int, vyPick: int)
      modifies this
      ensures View() == Advance(Cfg(), old(View()), now, vxPick, vyPick)
    {
      if now - lastMove < ballSpeed {
        return;
      }
      lastMove := now;
      ballX := ballX + ballVx;
      ballY := ballY + ballVy;
      if ballY <= 0 || ballY >= height - 1 {
        ballVy := -ballVy;
      }
      if ballX == 2 {
        if p1y <= ballY < p1y + paddleSize {
          ballVx := -ballVx;
        } else {
          score2 := score2 + 1;
          ResetBall(vxPick, vyPick);
        }
      } else if ballX == width - 3 {
        if p2y <= ballY < p2y + paddleSize {
          ballVx := -ballVx;
        } else {
          score1 := score1 + 1;
          ResetBall(vxPick, vyPick);
        }
      }
    }

    /** `process_input` for the key `getch` returned. */
    method ProcessInput(key: string)
      modifies this
      ensures View() == ApplyKey(Cfg(), old(View()), key)
    {
      if key == QuitKey {
        gameOver := true;
      }
      if key == P1Up && p1y > 0 {
        p1y := p1y - 1;
      } else if key == P1Down && p1y < height - paddleSize {
        p1y := p1y + 1;
      }
      if mode == Local {
        if key == P2Up && p2y > 0 {
          p2y := p2y - 1;
        } else if key == P2Down && p2y < height - paddleSize {
          p2y := p2y + 1;
        }
      }
    }

    /** `ai_move` */
    method AiMove()
      modifies this
      ensures View() == Track(Cfg(), old(View()))
    {
      if ballY < p2y {
        p2y := p2y - 1;
      } else if ballY > p2y + paddleSize - 1 {
        p2y := p2y + 1;
      }
    }

    /** `update_online`: returns the line handed to `sendall`; `received` is
        the peer's line, or `None` when the I/O failed. */
    method UpdateOnline(received: Option<string>) returns (outgoing: Option<string>)
      requires user.Valid()
      modifies this
      ensures outgoing == Outgoing(Cfg(), old(View()), user.stats["vs_online"].wins)
      ensures View() == Exchange(Cfg(), old(View()), received)
    {
      outgoing := None;
      var wins := user.stats["vs_online"].wins;
      if mode == OnlineHost {
        outgoing := Some(EncodeRecord([p1y, ballX, ballY, ballVx, ballVy, score1, score2, wins]));
        if received.None? {
          gameOver := true;
          return;
        }
        var dataIn := Fields(received.value);
        var first := FieldInt(dataIn, 0);
        if first.None? {
          gameOver := true;
          return;
        }
        p2y := first.value;
        if |dataIn| > 7 {
          var w := FieldInt(dataIn, 7);
          if w.None? {
            gameOver := true;
            return;
          }
          opponentWins := w.value;
        } else {
          opponentWins := 0;
        }
      } else if mode == OnlineClient {
        outgoing := Some(EncodeRecord([p2y, wins]));
        if received.None? {
          gameOver := true;
          return;
        }
        ReadHostRecord(Fields(received.value));
      }
    }

    /** The client's reading of the host's fields. Converting a field has no
        effect of its own, so the conversions are all taken first and the
        three tuple assignments then follow them in order. */
    method ReadHostRecord(dataIn: seq<string>)
      modifies this
      ensures View() == ClientRead(old(View()), dataIn)
    {
      AdoptHostRecord(FieldInt(dataIn, 0), FieldInt(dataIn, 1), FieldInt(dataIn, 2), FieldInt(dataIn, 3),
                      FieldInt(dataIn, 4), FieldInt(dataIn, 5), FieldInt(dataIn, 6), FieldInt(dataIn, 7),
                      |dataIn| > 7);
    }

    /** The client's three tuple assignments and the opponent's win count,
        given the conversions of fields 0 to 7; the first one that failed
        ends the game. */
    method AdoptHostRecord(p1: Option<int>, col: Option<int>, row: Option<int>, dx: Option<int>,
                           dy: Option<int>, s1: Option<int>, s2: Option<int>, wins: Option<int>, hasWins: bool)
      modifies this
      ensures View() == ClientAdopt(old(View()), p1, col, row, dx, dy, s1, s2, wins, hasWins)
    {
      if p1.None? || col.None? || row.None? {
        gameOver := true;
        return;
      }
      p1y, ballX, ballY := p1.value, col.value, row.value;
      if dx.None? || dy.None? {
        gameOver := true;
        return;
      }
      ballVx, ballVy := dx.value, dy.value;
      if s1.None? || s2.None? {
        gameOver := true;
        return;
      }
      score1, score2 := s1.value, s2.value;
      if hasWins {
        if wins.None? {
          gameOver := true;
          return;
        }
        opponentWins := wins.value;
      } else {
        opponentWins := 0;
      }
    }

    /** `run` driven by `script`, one element per pass of the loop. It stops
        when the game is over or the script runs out; `ticks` is the number
        of passes run. At game over the result `score1 > score2` is recorded
        in the profile under the mode's tag. */
    method Run(script: seq<TickInput>) returns (ticks: nat)
      requires user.Valid()
      modifies this, user
      ensures user.Valid() && user.username == old(user.username)
      ensures ticks <= |script|
      ensures View() == Replay(Cfg(), old(View()), script[..ticks])
      ensures Continues(Cfg(), old(View()), script[..ticks])
      ensures gameOver || ticks == |script|
      ensures user.stats == if gameOver then Recorded(old(user.stats), mode.Tag(), Won(View()))
                            else old(user.stats)
      ensures old(Sound(Cfg(), View())) && FairPicks(script) ==> Sound(Cfg(), View())
    {
      ghost var start := View();
      ticks := 0;
      while !gameOver && ticks < |script|
        invariant ticks <= |script|
        invariant View() == Replay(Cfg(), start, script[..ticks])
        invariant Continues(Cfg(), start, script[..ticks])
        invariant user.Valid() && user.stats == old(user.stats) && user.username == old(user.username)
      {
        var t := script[ticks];
        ghost var before := View();
        ProcessInput(t.key);
        if mode == Single {
          AiMove();
        }
        MoveBall(t.now, t.vxPick, t.vyPick);
        if mode.IsOnline() {
          var _ := UpdateOnline(t.received);
        }
        if score1 >= winScore || score2 >= winScore {
          gameOver := true;
        }
        assert View() == Tick(Cfg(), before, t);
        ContinuesStep(Cfg(), start, script, ticks);
        ticks := ticks + 1;
      }
      if gameOver {
        user.RecordResult(mode.Tag(), score1 > score2);
      }
      if Sound(Cfg(), start) && FairPicks(script) {
        assert FairPicks(script[..ticks]) by {
          forall i | 0 <= i < ticks
            ensures IsDirection(script[..ticks][i].vxPick) && IsDirection(script[..ticks][i].vyPick)
          {
            assert script[..ticks][i] == script[i];
          }
        }
        ReplaySound(Cfg(), start, script[..ticks]);
      }
    }
  }

  /** One more pass of the loop, taken from a state whose flag is clear. */
  lemma ContinuesStep(c: Config, g: Game, script: seq<TickInput>, n: nat)
    requires n < |script|
    requires Continues(c, g, script[..n]) && !Replay(c, g, script[..n]).gameOver
    ensures Continues(c, g, script[..n + 1])
    ensures Replay(c, g, script[..n + 1]) == Tick(c, Replay(c, g, script[..n]), script[n])
  {
    assert script[..n + 1][..n] == script[..n];
  }

}
