/** The state exchange of `update_online`: what each side sends, how it reads
    the peer's line, and the rule that any failure ends the game. */
module Sync {
  import opened Wrappers
  import opened Strings
  import opened Wire
  import opened Physics

  /** The host's record: its paddle, the ball, both scores and its online wins. */
  function HostValues(g: Game, wins: int): seq<int>
  {
    [g.p1y, g.ballX, g.ballY, g.vx, g.vy, g.score1, g.score2, wins]
  }

  /** The client's record: its paddle and its online wins. */
  function ClientValues(g: Game, wins: int): seq<int>
  {
    [g.p2y, wins]
  }

  /** The line a side hands to `sendall` in state `g`, `wins` being its own
      profile's online win count; nothing is sent outside the online modes. */
  function Outgoing(c: Config, g: Game, wins: int): Option<string>
  {
    if c.mode == OnlineHost then Some(EncodeRecord(HostValues(g, wins)))
    else if c.mode == OnlineClient then Some(EncodeRecord(ClientValues(g, wins)))
    else None
  }

  /** The host reading the client's line: field 0 becomes `p2_y` unchecked,
      field 7 (when there is one) the opponent's win count, else 0; a field
      that is not an integer ends the game, keeping what was already written. */
  function HostReceive(g: Game, line: string): Game
  {
    HostRead(g, Fields(line))
  }

  /** The host's reading of the fields of a line. */
  function HostRead(g: Game, fields: seq<string>): Game
    requires |fields| >= 1
  {
    match ParseInt(fields[0])
    case None => g.(gameOver := true)
    case Some(p2) =>
      var g1 := g.(p2y := p2);
      if |fields| > 7 then
        match ParseInt(fields[7])
        case None => g1.(gameOver := true)
        case Some(w) => g1.(opponentWins := w)
      else g1.(opponentWins := 0)
  }

  /** The client reading the host's line in the three tuple assignments of
      `update_online`: each writes its fields only if all of them are present
      and integers, and the first that fails ends the game. */
  function ClientReceive(g: Game, line: string): Game
  {
    ClientRead(g, Fields(line))
  }

  /** The client's reading of the fields of a line. */
  function ClientRead(g: Game, fields: seq<string>): Game
  {
    ClientAdopt(g, FieldInt(fields, 0), FieldInt(fields, 1), FieldInt(fields, 2), FieldInt(fields, 3),
                FieldInt(fields, 4), FieldInt(fields, 5), FieldInt(fields, 6), FieldInt(fields, 7), |fields| > 7)
  }

  /** The client's three tuple assignments, given what converting fields 0
      to 7 gave (`None` for a missing field or a ValueError): paddle 1 `p1`,
      the ball's column and row, its velocities `dx` and `dy`, the scores `s1`
      and `s2`, and the host's `wins`, which is read only when the line has
      an eighth field (`hasWins`). */
  function ClientAdopt(g: Game, p1: Option<int>, col: Option<int>, row: Option<int>, dx: Option<int>,
                       dy: Option<int>, s1: Option<int>, s2: Option<int>, wins: Option<int>, hasWins: bool): Game
  {
    if p1.None? || col.None? || row.None? then g.(gameOver := true)
    else
      var g1 := g.(p1y := p1.value, ballX := col.value, ballY := row.value);
      if dx.None? || dy.None? then g1.(gameOver := true)
      else
        var g2 := g1.(vx := dx.value, vy := dy.value);
        if s1.None? || s2.None? then g2.(gameOver := true)
        else
          var g3 := g2.(score1 := s1.value, score2 := s2.value);
          if !hasWins then g3.(opponentWins := 0)
          else if wins.None? then g3.(gameOver := true)
          else g3.(opponentWins := wins.value)
  }

  /** `update_online` once the record is sent: `received` is the peer's line,
      or `None` when sending, receiving or decoding the bytes failed. */
  function Exchange(c: Config, g: Game, received: Option<string>): Game
  {
    if !c.mode.IsOnline() then g
    else
      match received
      case None => g.(gameOver := true)
      case Some(line) =>
        if c.mode == OnlineHost then HostReceive(g, line) else ClientReceive(g, line)
  }

  /** True when the first `n` fields are present and all integers. */
  predicate IntsUpTo(fields: seq<string>, n: nat) {
    forall i :: 0 <= i < n ==> FieldInt(fields, i).Some?
  }

  /** `IntsUpTo` for the three stages of the client's decode, field by field. */
  lemma IntsUpToSteps(fields: seq<string>)
    ensures IntsUpTo(fields, 3) <==>
      FieldInt(fields, 0).Some? && FieldInt(fields, 1).Some? && FieldInt(fields, 2).Some?
    ensures IntsUpTo(fields, 5) <==>
      IntsUpTo(fields, 3) && FieldInt(fields, 3).Some? && FieldInt(fields, 4).Some?
    ensures IntsUpTo(fields, 7) <==>
      IntsUpTo(fields, 5) && FieldInt(fields, 5).Some? && FieldInt(fields, 6).Some?
  {
    if FieldInt(fields, 0).Some? && FieldInt(fields, 1).Some? && FieldInt(fields, 2).Some? {
      forall i | 0 <= i < 3 ensures FieldInt(fields, i).Some? {
        assert i == 0 || i == 1 || i == 2;
      }
      if FieldInt(fields, 3).Some? && FieldInt(fields, 4).Some? {
        forall i | 0 <= i < 5 ensures FieldInt(fields, i).Some? {
          assert i < 3 || i == 3 || i == 4;
        }
        if FieldInt(fields, 5).Some? && FieldInt(fields, 6).Some? {
          forall i | 0 <= i < 7 ensures FieldInt(fields, i).Some? {
            assert i < 5 || i == 5 || i == 6;
          }
        }
      }
    }
  }

  /** Whether the client's decode of `fields` raises nothing. */
  predicate ClientAccepts(fields: seq<string>) {
    IntsUpTo(fields, 7) && (|fields| > 7 ==> ParseInt(fields[7]).Some?)
  }

  /** Whether the host's decode of `fields` raises nothing. */
  predicate HostAccepts(fields: seq<string>) {
    |fields| >= 1 && ParseInt(fields[0]).Some? && (|fields| > 7 ==> ParseInt(fields[7]).Some?)
  }

  /** Round trip, host to client: the client adopts the host's paddle, ball,
      velocities and scores exactly and takes the eighth field as the
      opponent's win count; its own paddle and flags are untouched. */
  lemma ClientAdoptsHostRecord(g: Game, host: Game, wins: int)
    ensures ClientReceive(g, EncodeRecord(HostValues(host, wins)))
      == g.(p1y := host.p1y, ballX := host.ballX, ballY := host.ballY,
            vx := host.vx, vy := host.vy, score1 := host.score1, score2 := host.score2,
            opponentWins := wins)
  {
    var values := HostValues(host, wins);
    DecodeEncode(values);
    ClientReadsValues(g, Fields(EncodeRecord(values)), values);
  }

  lemma ClientReadsValues(g: Game, fields: seq<string>, values: seq<int>)
    requires |fields| == |values| == 8
    requires forall i :: 0 <= i < 8 ==> FieldInt(fields, i) == Some(values[i])
    ensures ClientRead(g, fields)
      == g.(p1y := values[0], ballX := values[1], ballY := values[2], vx := values[3], vy := values[4],
            score1 := values[5], score2 := values[6], opponentWins := values[7])
  {
    assert FieldInt(fields, 0) == Some(values[0]) && FieldInt(fields, 1) == Some(values[1]);
    assert FieldInt(fields, 2) == Some(values[2]) && FieldInt(fields, 3) == Some(values[3]);
    assert FieldInt(fields, 4) == Some(values[4]) && FieldInt(fields, 5) == Some(values[5]);
    assert FieldInt(fields, 6) == Some(values[6]) && FieldInt(fields, 7) == Some(values[7]);
    ClientAdoptStages(g, FieldInt(fields, 0), FieldInt(fields, 1), FieldInt(fields, 2), FieldInt(fields, 3),
                      FieldInt(fields, 4), FieldInt(fields, 5), FieldInt(fields, 6), FieldInt(fields, 7), true);
  }

  /** Round trip, client to host: the host adopts the client's paddle, and
      since the client's record has two fields the opponent's win count is 0. */
  lemma HostAdoptsClientRecord(g: Game, client: Game, wins: int)
    ensures HostReceive(g, EncodeRecord(ClientValues(client, wins)))
      == g.(p2y := client.p2y, opponentWins := 0)
  {
    DecodeEncode(ClientValues(client, wins));
  }

  /** The stages of the client's tuple assignments over the conversions. */
  lemma ClientAdoptStages(g: Game, p1: Option<int>, col: Option<int>, row: Option<int>, dx: Option<int>,
                          dy: Option<int>, s1: Option<int>, s2: Option<int>, wins: Option<int>, hasWins: bool)
    ensures var r := ClientAdopt(g, p1, col, row, dx, dy, s1, s2, wins, hasWins);
      var first := p1.Some? && col.Some? && row.Some?;
      var second := first && dx.Some? && dy.Some?;
      var third := second && s1.Some? && s2.Some?;
      && r.p2y == g.p2y && r.lastMove == g.lastMove
      && r.gameOver == (g.gameOver || !third || (hasWins && wins.None?))
      && (!first ==> r == g.(gameOver := true))
      && (first ==> r.p1y == p1.value && r.ballX == col.value && r.ballY == row.value)
      && (first && !second ==> r == g.(p1y := r.p1y, ballX := r.ballX, ballY := r.ballY, gameOver := true))
      && (second ==> r.vx == dx.value && r.vy == dy.value)
      && (second && !third ==>
            r == g.(p1y := r.p1y, ballX := r.ballX, ballY := r.ballY, vx := r.vx, vy := r.vy, gameOver := true))
      && (third ==> r.score1 == s1.value && r.score2 == s2.value)
      && (third && !(hasWins && wins.None?) ==>
            r == g.(p1y := p1.value, ballX := col.value, ballY := row.value, vx := dx.value, vy := dy.value,
                    score1 := s1.value, score2 := s2.value, opponentWins := if hasWins then wins.value else 0))
  {
  }

  /** The client's decode ends the game exactly when a field it reads is
      missing or not an integer, and otherwise leaves the flag alone. */
  lemma ClientFailureEndsGame(g: Game, fields: seq<string>)
    ensures ClientRead(g, fields).gameOver == (g.gameOver || !ClientAccepts(fields))
  {
    IntsUpToSteps(fields);
    ClientAdoptStages(g, FieldInt(fields, 0), FieldInt(fields, 1), FieldInt(fields, 2), FieldInt(fields, 3),
                      FieldInt(fields, 4), FieldInt(fields, 5), FieldInt(fields, 6), FieldInt(fields, 7), |fields| > 7);
  }

  /** The client's decode when it raises nothing: all seven fields and the
      opponent's win count are taken over. */
  lemma ClientReadsAll(g: Game, fields: seq<string>)
    ensures ClientAccepts(fields) ==>
      ClientRead(g, fields) == g.(p1y := FieldInt(fields, 0).value, ballX := FieldInt(fields, 1).value,
        ballY := FieldInt(fields, 2).value, vx := FieldInt(fields, 3).value, vy := FieldInt(fields, 4).value,
        score1 := FieldInt(fields, 5).value, score2 := FieldInt(fields, 6).value,
        opponentWins := if |fields| > 7 then FieldInt(fields, 7).value else 0)
  {
    IntsUpToSteps(fields);
    ClientAdoptStages(g, FieldInt(fields, 0), FieldInt(fields, 1), FieldInt(fields, 2), FieldInt(fields, 3),
                      FieldInt(fields, 4), FieldInt(fields, 5), FieldInt(fields, 6), FieldInt(fields, 7), |fields| > 7);
  }

  /** Partial writes on the client: the assignments before the failing one
      stay, those from it on do not; with fewer than three good fields
      nothing but the flag changes. */
  lemma ClientPartialWrites(g: Game, fields: seq<string>)
    ensures var r := ClientRead(g, fields);
      && r.p2y == g.p2y && r.lastMove == g.lastMove
      && (!IntsUpTo(fields, 3) ==> r == g.(gameOver := true))
      && (IntsUpTo(fields, 3) ==>
            r.p1y == FieldInt(fields, 0).value && r.ballX == FieldInt(fields, 1).value
            && r.ballY == FieldInt(fields, 2).value)
      && (IntsUpTo(fields, 3) && !IntsUpTo(fields, 5) ==>
            r == g.(p1y := r.p1y, ballX := r.ballX, ballY := r.ballY, gameOver := true))
      && (IntsUpTo(fields, 5) ==> r.vx == FieldInt(fields, 3).value && r.vy == FieldInt(fields, 4).value)
      && (IntsUpTo(fields, 5) && !IntsUpTo(fields, 7) ==>
            r == g.(p1y := r.p1y, ballX := r.ballX, ballY := r.ballY, vx := r.vx, vy := r.vy, gameOver := true))
      && (IntsUpTo(fields, 7) ==> r.score1 == FieldInt(fields, 5).value && r.score2 == FieldInt(fields, 6).value)
  {
    IntsUpToSteps(fields);
    ClientAdoptStages(g, FieldInt(fields, 0), FieldInt(fields, 1), FieldInt(fields, 2), FieldInt(fields, 3),
                      FieldInt(fields, 4), FieldInt(fields, 5), FieldInt(fields, 6), FieldInt(fields, 7), |fields| > 7);
  }

  /** The host's decode ends the game exactly when field 0, or a field 7 that
      is present, is not an integer; field 0 is written whenever it parses. */
  lemma HostFailureEndsGame(g: Game, fields: seq<string>)
    requires |fields| >= 1
    ensures var r := HostRead(g, fields);
      && r.gameOver == (g.gameOver || !HostAccepts(fields))
      && (ParseInt(fields[0]).Some? ==> r.p2y == ParseInt(fields[0]).value)
      && (ParseInt(fields[0]).None? ==> r == g.(gameOver := true))
      && r.(p2y := g.p2y, opponentWins := g.opponentWins, gameOver := g.gameOver) == g
  {
  }

  /** A lost link ends the game in the online modes and changes nothing else. */
  lemma LostLinkEndsGame(c: Config, g: Game)
    requires c.mode.IsOnline()
    ensures Exchange(c, g, None) == g.(gameOver := true)
  {
  }

  /** What an exchange may write: nothing outside the online modes, only
      `p2_y`, the opponent's win count and the flag on the host, and never
      the client's own paddle or the clock; a set flag stays set. */
  lemma ExchangeFrame(c: Config, g: Game, received: Option<string>)
    ensures var r := Exchange(c, g, received);
      && (g.gameOver ==> r.gameOver)
      && (!c.mode.IsOnline() ==> r == g)
      && (c.mode == OnlineHost ==>
            r.(p2y := g.p2y, opponentWins := g.opponentWins, gameOver := g.gameOver) == g)
      && (c.mode == OnlineClient ==> r.p2y == g.p2y && r.lastMove == g.lastMove)
  {
    match received {
      case None =>
      case Some(line) =>
        var fields := Fields(line);
        if c.mode == OnlineHost {
          HostFailureEndsGame(g, fields);
        } else if c.mode == OnlineClient {
          ClientPartialWrites(g, fields);
          ClientFailureEndsGame(g, fields);
        }
    }
  }

  /** Decoding does not read the game-over flag: an exchange started with
      the flag set ends as it would have, with the flag set. */
  lemma ExchangeIgnoresFlag(c: Config, g: Game, received: Option<string>)
    ensures Exchange(c, g.(gameOver := true), received) == Exchange(c, g, received).(gameOver := true)
  {
    match received {
      case None =>
      case Some(line) =>
        var fields := Fields(line);
        if c.mode == OnlineHost {
          HostFailureEndsGame(g, fields);
          HostFailureEndsGame(g.(gameOver := true), fields);
        } else if c.mode == OnlineClient {
          ClientReadIgnoresFlag(g, fields);
        }
    }
  }

  lemma ClientReadIgnoresFlag(g: Game, fields: seq<string>)
    ensures ClientRead(g.(gameOver := true), fields) == ClientRead(g, fields).(gameOver := true)
  {
    ClientAdoptIgnoresFlag(g, FieldInt(fields, 0), FieldInt(fields, 1), FieldInt(fields, 2), FieldInt(fields, 3),
                           FieldInt(fields, 4), FieldInt(fields, 5), FieldInt(fields, 6), FieldInt(fields, 7), |fields| > 7);
  }

  lemma ClientAdoptIgnoresFlag(g: Game, p1: Option<int>, col: Option<int>, row: Option<int>, dx: Option<int>,
                               dy: Option<int>, s1: Option<int>, s2: Option<int>, wins: Option<int>, hasWins: bool)
    ensures ClientAdopt(g.(gameOver := true), p1, col, row, dx, dy, s1, s2, wins, hasWins)
      == ClientAdopt(g, p1, col, row, dx, dy, s1, s2, wins, hasWins).(gameOver := true)
  {
  }

}
