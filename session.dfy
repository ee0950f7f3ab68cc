/** One pass of `PongGame.run`'s loop as a function of the state, sessions as
    sequences of passes, and what stays true over a whole session. */
module Session {
  import opened Wrappers
  import opened Wire
  import opened Physics
  import opened Controls
  import opened Sync

  /** What the outside world hands one pass of the loop: the key `getch`
      returned, the clock reading, the two `random.choice` picks a miss would
      use, and the peer's line (`None` when the exchange's I/O failed). */
  datatype TickInput = TickInput(key: string, now: real, vxPick: int, vyPick: int, received: Option<string>)

  /** One pass in `run`'s order: input, the opponent controller (single mode
      only), the ball step, the online exchange, then the win check. */
  function Tick(c: Config, g: Game, t: TickInput): Game
  {
    var keyed := ApplyKey(c, g, t.key);
    var tracked := if c.mode == Single then Track(c, keyed) else keyed;
    var moved := Advance(c, tracked, t.now, t.vxPick, t.vyPick);
    var synced := Exchange(c, moved, t.received);
    if synced.score1 >= c.winScore || synced.score2 >= c.winScore then synced.(gameOver := true)
    else synced
  }

  /** The state after running every pass of `script` in order. */
  function Replay(c: Config, g: Game, script: seq<TickInput>): Game
  {
    if script == [] then g
    else Tick(c, Replay(c, g, script[..|script| - 1]), script[|script| - 1])
  }

  /** The result `run` reports: `won = score1 > score2`. */
  predicate Won(g: Game) {
    g.score1 > g.score2
  }

  /** Every pick in the script is one `random.choice([-1, 1])` can make. */
  predicate FairPicks(script: seq<TickInput>) {
    forall i :: 0 <= i < |script| ==> IsDirection(script[i].vxPick) && IsDirection(script[i].vyPick)
  }

  /** The loop ran every pass of `script`: none of them started after the
      game-over flag was set. */
  predicate Continues(c: Config, g: Game, script: seq<TickInput>) {
    script == []
    || (var before := script[..|script| - 1];
        Continues(c, g, before) && !Replay(c, g, before).gameOver)
  }

  /** What holds throughout a session on a side that runs the physics (every
      mode but the online client, which takes the ball and scores from the
      host): the ball invariant, paddle 1 in range, paddle 2 in range unless
      the online client sets it, scores between 0 and the win score, and
      below it while the game goes on. */
  predicate Sound(c: Config, g: Game) {
    ValidConfig(c) && c.mode != OnlineClient
    && BallInv(c, g) && PaddleInRange(c, g.p1y)
    && (c.mode != OnlineHost ==> PaddleInRange(c, g.p2y))
    && 0 <= g.score1 <= c.winScore && 0 <= g.score2 <= c.winScore
    && (!g.gameOver ==> g.score1 < c.winScore && g.score2 < c.winScore)
  }

  /** A new game outside the online-client mode starts sound. */
  lemma OpeningSound(c: Config, now: real, vxPick: int, vyPick: int)
    requires ValidConfig(c) && c.mode != OnlineClient
    requires IsDirection(vxPick) && IsDirection(vyPick)
    ensures Sound(c, Opening(c, now, vxPick, vyPick))
  {
    OpeningInRange(c, now, vxPick, vyPick);
  }

  /** The win check: in every mode, a pass that leaves either score at the
      win score or above sets the game-over flag on that same pass. */
  lemma TickWinCheck(c: Config, g: Game, t: TickInput)
    ensures var r := Tick(c, g, t);
      r.score1 >= c.winScore || r.score2 >= c.winScore ==> r.gameOver
  {
  }

  /** A pass of a running sound game keeps it sound; neither score falls and
      together they rise by at most one. */
  lemma TickSound(c: Config, g: Game, t: TickInput)
    requires Sound(c, g) && !g.gameOver
    requires IsDirection(t.vxPick) && IsDirection(t.vyPick)
    ensures var r := Tick(c, g, t);
      Sound(c, r) && r.score1 >= g.score1 && r.score2 >= g.score2
      && r.score1 + r.score2 <= g.score1 + g.score2 + 1
  {
    var keyed := ApplyKey(c, g, t.key);
    ApplyKeyBounds(c, g, t.key);
    var tracked := if c.mode == Single then Track(c, keyed) else keyed;
    if c.mode == Single {
      TrackFollowsBall(c, keyed);
    }
    assert BallInv(c, tracked) && PaddleInRange(c, tracked.p1y);
    var moved := Advance(c, tracked, t.now, t.vxPick, t.vyPick);
    AdvanceKeepsBall(c, tracked, t.now, t.vxPick, t.vyPick);
    AdvanceScores(c, tracked, t.now, t.vxPick, t.vyPick);
    AdvanceGate(c, tracked, t.now, t.vxPick, t.vyPick);
    ExchangeFrame(c, moved, t.received);
  }

  /** Over the passes the loop runs, a sound game stays sound and its scores
      never fall: no score ever passes the win score. */
  lemma {:induction false} ReplaySound(c: Config, g: Game, script: seq<TickInput>)
    requires Sound(c, g) && FairPicks(script) && Continues(c, g, script)
    ensures var r := Replay(c, g, script);
      Sound(c, r) && r.score1 >= g.score1 && r.score2 >= g.score2
    decreases |script|
  {
    if script != [] {
      var n := |script| - 1;
      var before := script[..n];
      assert FairPicks(before) by {
        forall i | 0 <= i < |before| ensures IsDirection(before[i].vxPick) && IsDirection(before[i].vyPick) {
          assert before[i] == script[i];
        }
      }
      ReplaySound(c, g, before);
      assert script[..n] == before;
      TickSound(c, Replay(c, g, before), script[n]);
    }
  }

  /** A `q` sets the game-over flag, and the rest of that pass runs as it
      would have for a key that is no control. */
  lemma QuitStillTicks(c: Config, g: Game, t: TickInput)
    requires !IsControl(t.key)
    ensures Tick(c, g, t.(key := QuitKey)) == Tick(c, g, t).(gameOver := true)
  {
    ApplyOtherKeys(c, g, t.key);
    ApplyOtherKeys(c, g, QuitKey);
    var flagged := g.(gameOver := true);
    var tracked := if c.mode == Single then Track(c, g) else g;
    var trackedQ := if c.mode == Single then Track(c, flagged) else flagged;
    assert trackedQ == tracked.(gameOver := true);
    var moved := Advance(c, tracked, t.now, t.vxPick, t.vyPick);
    assert Advance(c, trackedQ, t.now, t.vxPick, t.vyPick) == moved.(gameOver := true);
    ExchangeIgnoresFlag(c, moved, t.received);
  }

  /** On the online client no key and no pass moves the client's own paddle
      (`p2_y`): the arrow keys act in local mode only, and nothing else there
      writes it. */
  lemma ClientPaddleFrozen(c: Config, g: Game, t: TickInput)
    requires c.mode == OnlineClient
    ensures Tick(c, g, t).p2y == g.p2y
  {
    var keyed := ApplyKey(c, g, t.key);
    ApplyKeyBounds(c, g, t.key);
    var moved := Advance(c, keyed, t.now, t.vxPick, t.vyPick);
    AdvanceGate(c, keyed, t.now, t.vxPick, t.vyPick);
    ExchangeFrame(c, moved, t.received);
  }

  /** On the online client a pass that receives the host's record ends with
      the host's scores, so the client's result is won exactly when the host
      leads, and the game ends when the host's scores reach the win score. */
  lemma ClientOutcomeFollowsHost(c: Config, g: Game, t: TickInput, host: Game, wins: int)
    requires c.mode == OnlineClient
    requires t.received == Some(EncodeRecord(HostValues(host, wins)))
    ensures var r := Tick(c, g, t);
      && r.score1 == host.score1 && r.score2 == host.score2
      && (Won(r) <==> host.score1 > host.score2)
      && (r.gameOver <==> g.gameOver || t.key == QuitKey
                          || host.score1 >= c.winScore || host.score2 >= c.winScore)
  {
    var keyed := ApplyKey(c, g, t.key);
    ApplyKeyBounds(c, g, t.key);
    var moved := Advance(c, keyed, t.now, t.vxPick, t.vyPick);
    AdvanceGate(c, keyed, t.now, t.vxPick, t.vyPick);
    ClientAdoptsHostRecord(moved, host, wins);
  }

}
