# A verified model of the PyPong game core

This project models the game logic of PyPong, a terminal Pong game for one
player against a tracking opponent, two players at one keyboard, or two
players over a TCP connection (one host, one client). It also models the
player profile that counts wins and losses per kind of opponent. All of
this lives in `pypong.py`.

The model has two layers.

- **Specification functions.** The game state is a `Game` value and the
  fixed settings are a `Config`. Each step is a pure function:
  - `Advance` is `move_ball`, with `Recentre` for `reset_ball`.
  - `ApplyKey` is `process_input` and `Track` is `ai_move`.
  - `Exchange` is `update_online`. It sends `Outgoing`, and the host and
    client decode with `HostRead` and `ClientRead`.
  - `Tick` is one pass of `run`'s loop and `Replay` is a whole session.

  The wire format is built on a model of the Python built-ins it uses:
  `str.strip()`, `str.split(",")`, `int()` and `str()` of an integer.
  `int()` takes surrounding whitespace, a sign, and digit groups with single
  underscores. The whitespace it skips is not `strip()`'s: it keeps the
  separators U+001C to U+001F, so a field starting with one is refused.
- **The objects.** `PongGame` and `UserData` are classes whose methods
  update their fields in place. Each method is proved to leave exactly the
  state its specification function computes from the old state. `Run`'s
  loop is proved against `Replay`, and it records the result in the
  profile at game over.

The properties are proved as lemmas about the specification functions:
- the ball stays on the board, between the paddle columns, and heads away
  from any wall or paddle column it is on;
- scores never fall, and a step raises at most one of them by one;
- paddles stay in range under keys and under the tracking opponent;
- the wire records round-trip, negative velocities included;
- any failed exchange ends the game, keeping the partial writes made
  before the failing assignment;
- the win check ends the game on the same pass, and no pass starts after
  game over;
- recording a result counts exactly one game in the right tally.

The time gate, the clock and the random direction picks are parameters.
So are the key read by `getch` and the line received from the peer
(`None` when sending, receiving or decoding bytes failed).

Two behaviours of the code are modelled as written and stated as lemmas:
- In `online_client` mode no key moves the client's own paddle `p2_y`.
  `process_input` moves `p2_y` only in `local` mode, and `update_online`
  never writes it on the client (`Session.ClientPaddleFrozen`).
- The client also runs `move_ball` every pass. The host's record then
  overwrites the ball and the scores in the same pass.

How a malformed record is handled follows the code. A missing field
raises IndexError, and a field that is not an integer raises ValueError.
Either one ends the game. The client keeps whatever its tuple assignments
had already written before the failing one. No record is skipped.

Modules: `Wrappers` (Option), `Strings`, `Wire`, `Physics`, `Controls`,
`Sync`, `Session`, `Profile` and `Pong`.

## Model

| member | source | states |
|---|---|---|
| Strings.Strip | pypong.py:200 | `strip()` never lengthens its argument, and its result neither starts nor ends with whitespace |
| Strings.StripPadded | pypong.py:200 | `strip()` removes exactly the whitespace padding around a core that has none at its ends |
| Strings.StripIdempotent | pypong.py:46 | stripping an already stripped name changes nothing |
| Strings.Split | pypong.py:200 | `split(",")` returns at least one piece, no piece contains the separator, and joining the pieces with it gives the text back |
| Strings.SplitJoin | pypong.py:200 | splitting separator-free pieces joined by the separator gives back exactly those pieces |
| Strings.IntToString | pypong.py:196 | the decimal text of an integer is non-empty and has no whitespace and no comma, and starts with `-` exactly for negative numbers |
| Strings.NatToStringValue | pypong.py:196 | the digits `str()` writes for a natural number are digit groups `int()` accepts, and their value is the number |
| Strings.IntStrip | pypong.py:201 | the trim `int()` applies never lengthens its argument and leaves neither end on space, `\t`, `\n`, `\v`, `\f`, `\r` or non-ASCII whitespace; unlike `strip()` it keeps U+001C to U+001F |
| Strings.ParseInt | pypong.py:201 | `int()` of a text: the whitespace `int()` skips is trimmed from both ends, then an optional sign and digit groups joined by single underscores give the value; anything else is `None` (ValueError); proved the inverse of `IntToString` by `ParseIntToString` |
| Strings.ParseIntRefusesSeparator | pypong.py:200-201 | a field starting with one of U+001C to U+001F is refused by `int()` (ValueError), although `strip()` would have removed that character |
| Strings.ParseIntToString | pypong.py:201 | `int(str(n)) == n` for every integer, negative ones included |
| Wire.EncodeRecord | pypong.py:196 | the f-string record: the decimal texts of the values joined by commas and ended by a newline; `DecodeEncode` proves it decodes back to the values |
| Wire.FieldInt | pypong.py:201 | `int(data_in[i])`: the parsed field, or `None` when the field is missing (IndexError) or not an integer (ValueError) |
| Wire.Fields | pypong.py:200 | a received line always splits into at least one field |
| Wire.FieldsOfRecord | pypong.py:196-200 | a record built by the f-string and then stripped and split gives back the decimal texts of the values sent |
| Wire.DecodeEncode | pypong.py:196-202 | decoding a record field by field gives back every value encoded, and there is no extra field |
| Physics.Opening | pypong.py:99-107 | the opening state: both paddles at `(HEIGHT - paddle_size) // 2`, the ball at the centre with the picked directions, scores 0, the clock at the start time, the flag clear; `OpeningInRange` and `Session.OpeningSound` prove it in range |
| Physics.Recentre | pypong.py:138-142 | `reset_ball`: the ball at `(WIDTH // 2, HEIGHT // 2)` with the picked velocities, everything else as it was |
| Physics.Advance | pypong.py:144-170 | `move_ball`: nothing until the ball is due, then one diagonal cell, the wall bounce, and the hit or the miss at either paddle column; its properties are the `Advance…` lemmas below |
| Physics.Due | pypong.py:145-146 | the time gate of `move_ball`: a step is taken once `ball_speed` has passed since `last_move` |
| Physics.OpeningInRange | pypong.py:99-103 | a new game has the ball and both paddles in range, given a board of at least 30 by 10 |
| Physics.AdvanceGate | pypong.py:144-147 | before `ball_speed` has passed since `last_move` nothing changes; otherwise the clock is recorded and the paddles, the flag and the opponent's wins stay |
| Physics.AdvanceKeepsBall | pypong.py:144-170 | a step keeps the ball between the paddle columns and on the board, moving diagonally and heading away from any wall or paddle column it touches |
| Physics.AdvanceKeepsRows | pypong.py:149-154 | the wall bounce keeps `0 <= ball_y <= HEIGHT-1`, with `ball_vy` pointing away from a wall the ball is on |
| Physics.AdvanceKeepsColumns | pypong.py:156-170 | the paddle hit or the miss and re-centring keeps `2 <= ball_x <= WIDTH-3`, with `ball_vx` pointing away from a paddle column the ball is on |
| Physics.AdvanceScores | pypong.py:156-170 | scores never fall and rise by at most one in total; `score2` rises exactly when the ball reaches column 2 outside paddle 1's half-open span, and `score1` the mirror case at `WIDTH-3`; a miss re-centres the ball with the picks, and a hit only reverses `ball_vx` |
| Physics.AdvanceMovesOneCell | pypong.py:149-150 | a step that scores nothing moves the ball exactly one cell along each axis |
| Physics.AdvanceBounces | pypong.py:152-154 | on a step that scores nothing, `ball_vy` is reversed exactly when the ball ends on the top or bottom row |
| Controls.ApplyKey | pypong.py:172-184 | `process_input` for one key: `q` sets the flag, `w`/`s` nudge paddle 1 within the board, and the arrow keys nudge paddle 2 in local mode only; its properties are `ApplyKeyBounds`, `ApplyKeySteps` and `ApplyOtherKeys` |
| Controls.Track | pypong.py:186-190 | `ai_move`: paddle 2 one row toward a ball row outside its span, with no clamp; its properties are `TrackFollowsBall` and `TrackNeverRecedes` |
| Controls.ApplyKeyBounds | pypong.py:172-184 | a key moves each paddle by at most one row and keeps a paddle that was in range in range; paddle 2 moves only in local mode; the flag is set exactly for `q`; the ball, the scores and the clock stay (the moves themselves are `ApplyKeySteps`) |
| Controls.ApplyKeySteps | pypong.py:176-184 | `w` moves paddle 1 up one row exactly when it is above row 0, `s` down one row exactly when it is above the last position; the arrow keys do the same for paddle 2 in local mode; in every other case the paddle stays |
| Controls.ApplyOtherKeys | pypong.py:172-184 | a key that is not a control changes nothing, and `q` only sets the game-over flag |
| Controls.TrackFollowsBall | pypong.py:186-190 | the opponent's paddle moves one row toward the ball when the ball is outside its span and stays when the ball is level with it; it stays on the board while the ball does, though nothing clamps it |
| Controls.TrackNeverRecedes | pypong.py:186-190 | the tracked paddle's distance from the ball's row never grows, and shrinks by one while it is positive |
| Sync.HostValues | pypong.py:196 | the host's eight values in record order: its paddle, the ball, the velocities, both scores and its online wins |
| Sync.ClientValues | pypong.py:206 | the client's two values: its paddle `p2_y` and its online wins |
| Sync.Outgoing | pypong.py:194-207 | the record sent: the host's eight values or the client's paddle and online wins, and nothing outside the online modes; decoded by `ClientAdoptsHostRecord` and `HostAdoptsClientRecord` |
| Sync.HostRead | pypong.py:200-202 | the host's decode: field 0 becomes `p2_y` and field 7, if present, the opponent's wins; the first failed conversion ends the game; properties in `HostFailureEndsGame` |
| Sync.HostReceive | pypong.py:200-202 | the host's reading of a received line: stripped and split on commas, then `HostRead` |
| Sync.ClientAdopt | pypong.py:211-219 | the client's three tuple assignments and the wins line, each writing its targets only when all of its conversions succeed, the first failure setting the flag; properties in `ClientAdoptStages` |
| Sync.ClientReceive | pypong.py:210-214 | the client's reading of a received line: stripped and split on commas, then `ClientRead` |
| Sync.ClientRead | pypong.py:210-214 | the client's decode: `ClientAdopt` of fields 0 to 7 converted by `int()`; properties in `ClientReadsAll`, `ClientPartialWrites` and `ClientFailureEndsGame` |
| Sync.Exchange | pypong.py:192-219 | `update_online` after the send: no change outside the online modes, the game ends on a lost link, otherwise the host or client decode of the received line; properties in `ExchangeFrame`, `LostLinkEndsGame` and `ExchangeIgnoresFlag` |
| Sync.ClientAdoptsHostRecord | pypong.py:196-214 | the client decoding the host's record takes over the host's paddle, ball, velocities and scores exactly, and its eighth field as the opponent's wins; nothing else changes |
| Sync.HostAdoptsClientRecord | pypong.py:200-206 | the host decoding the client's record takes over the client's paddle, and the opponent's wins become 0 because the record has two fields |
| Sync.ClientReadsValues | pypong.py:210-214 | eight fields holding given integers are taken over by the client's decode in order |
| Sync.ClientReadsAll | pypong.py:210-214 | when no conversion fails, the client's decode writes fields 0 to 6 into paddle, ball, velocities and scores, and the opponent's wins are field 7, or 0 without one |
| Sync.ClientAdoptStages | pypong.py:211-219 | the three tuple assignments write their targets only when all of their conversions succeed; the first failing one sets the flag and leaves the later targets as they were |
| Sync.ClientFailureEndsGame | pypong.py:210-219 | the client's decode sets the game-over flag exactly when a field it reads is missing or not an integer |
| Sync.ClientPartialWrites | pypong.py:211-219 | with 3 or 4 good fields paddle 1 and the ball position are still written before the game ends; with 5 or 6 the velocities too; fewer than 3 change nothing but the flag; `p2_y` and the clock are never written |
| Sync.HostFailureEndsGame | pypong.py:200-219 | the host's decode ends the game exactly when field 0, or a field 7 that exists, is not an integer; field 0 becomes `p2_y` with no range check whenever it parses; nothing but `p2_y`, the opponent's wins and the flag changes |
| Sync.LostLinkEndsGame | pypong.py:193-219 | in the online modes a failed send or receive ends the game and changes nothing else |
| Sync.ExchangeFrame | pypong.py:192-219 | the exchange changes nothing outside the online modes; on the host only `p2_y`, the opponent's wins and the flag; on the client never `p2_y` or the clock; a set flag stays set |
| Sync.ExchangeIgnoresFlag | pypong.py:192-219 | the exchange does not read the game-over flag: starting with it set gives the same result, with the flag set |
| Sync.ClientReadIgnoresFlag | pypong.py:210-219 | the client's decode does not read the game-over flag |
| Session.Tick | pypong.py:222-232 | one pass of `run`'s loop: the key, the opponent in single mode, the ball step, the exchange in the online modes, then the win check; properties in `TickSound` and `TickWinCheck` |
| Session.Replay | pypong.py:221-233 | the passes of a script applied in order; properties in `ReplaySound` and `Pong.PongGame.Run` |
| Session.Won | pypong.py:240 | the result `run` records: a win exactly when `score1 > score2` |
| Session.OpeningSound | pypong.py:99-107 | a new game outside the online-client mode satisfies the session invariant |
| Session.TickWinCheck | pypong.py:231-232 | in every mode, a pass that leaves either score at the win score or above sets the game-over flag on that pass |
| Session.TickSound | pypong.py:222-232 | outside online_client, a pass of a running game keeps the ball invariant, paddle 1 in range, paddle 2 in range too except on online_host (where the client's field 0 sets it unchecked), and the scores between 0 and the win score; no score falls, and the two rise by at most one together |
| Session.ReplaySound | pypong.py:221-233 | over every pass the loop runs, the session invariant holds and the scores never fall, so no score passes the win score |
| Session.QuitStillTicks | pypong.py:172-232 | a `q` sets the flag, and the rest of that pass runs as it would for a key that is no control |
| Session.ClientPaddleFrozen | pypong.py:172-214 | in online-client mode no pass changes the client's own paddle `p2_y` |
| Session.ClientOutcomeFollowsHost | pypong.py:210-241 | a client pass that receives the host's record ends with the host's scores, so the client's result is a win exactly when the host leads, and the game ends when the host's scores reach the win score |
| Profile.StatsKey | pypong.py:54 | the mode-to-tally table, `None` for any other mode; properties in `ModesToTallies` |
| Profile.AcceptedName | pypong.py:45-51 | the stripped name when it is 1 to 12 characters long, otherwise `None`; properties in `AcceptedNameStable` and `AcceptedNameRefuses` |
| Profile.Recorded | pypong.py:53-60 | `record_result` on the tallies: one more win or loss in the mode's tally, nothing for an unknown mode; properties in `RecordedCountsOneGame` |
| Profile.DefaultStats | pypong.py:13-20 | a new profile has the three tallies, each at zero wins and zero losses |
| Profile.ModesToTallies | pypong.py:54 | `single`, `local` and the two online modes map to `vs_ai`, `vs_local` and `vs_online`, and every mapped key is a tally of the profile |
| Profile.RecordedCountsOneGame | pypong.py:53-60 | a result adds exactly one game, a win exactly when `won`, to the mode's tally and changes no other tally; an unknown mode changes nothing |
| Profile.AcceptedNameStable | pypong.py:45-51 | an accepted name is 1 to 12 characters without surrounding whitespace, and entering it again is accepted unchanged |
| Profile.AcceptedNameRefuses | pypong.py:45-51 | blank names, and names longer than 12 characters once stripped, are refused |
| Profile.UserData.constructor | pypong.py:26-36 | a profile with no saved file has the name `Player` and every tally at zero |
| Profile.UserData.SetUsername | pypong.py:45-51 | returns True and stores the stripped name exactly when it is 1 to 12 characters long; otherwise returns False and keeps the name; the stats are unchanged |
| Profile.UserData.RecordResult | pypong.py:53-60 | the stats become the recorded tallies and keep their three keys; the name is unchanged |
| Pong.PongGame.constructor | pypong.py:76-107 | the board is 60 by 20, or the terminal size less 10 with a floor of 30 by 10; the constants are set; the state is the opening position |
| Pong.PongGame.ResetBall | pypong.py:138-142 | the ball is re-centred with the picked directions, and nothing else changes |
| Pong.PongGame.MoveBall | pypong.py:144-170 | the new state is the ball step `Advance` of the old one |
| Pong.PongGame.ProcessInput | pypong.py:172-184 | the new state is `ApplyKey` of the old state and the key |
| Pong.PongGame.AiMove | pypong.py:186-190 | the new state is `Track` of the old one |
| Pong.PongGame.UpdateOnline | pypong.py:192-219 | the line sent is the mode's record with the profile's online wins, and the new state is `Exchange` of the old state and the received line |
| Pong.PongGame.ReadHostRecord | pypong.py:210-214 | the new state is the client's decode `ClientRead` of the received fields |
| Pong.PongGame.AdoptHostRecord | pypong.py:211-219 | the three tuple assignments, and then the opponent's wins, are applied in order until the first failed conversion |
| Pong.PongGame.Run | pypong.py:221-241 | the loop runs passes until game over or the end of the script, and the state is the replay of the passes run; no pass starts after game over; at game over the result `score1 > score2` is recorded under the mode's tag; a sound session stays sound |

## Left out

- Terminal output is not modelled: `draw`, `clear`, `print`, `input` and `get_stats_str` are presentation only.
- `getch` is not part of this model; the key it returns is a parameter of `ProcessInput` and of each pass of `Run`.
- Sockets are not modelled: `sendall`, `recv(64)`, `get_ip`, and the connection setup and name handshake in `main_menu`. The received line is a parameter, with `None` for any failure while sending, receiving or decoding bytes. Stream framing (partial or merged records) is an I/O concern; the model decodes one line at a time.
- The clock is a `real` parameter and float rounding is ignored. `move_ball` reads `time.time()` twice, and the model uses one reading `now` for both. `time.sleep` is left out.
- `random.choice([-1, 1])` becomes two pick parameters. The invariant lemmas require the picks to be -1 or 1 (`FairPicks`).
- `shutil.get_terminal_size` becomes the `columns` and `lines` parameters of the constructor.
- Profile persistence is not modelled: JSON `load` and `save`, and their I/O failures. The profile is an in-memory record. A saved file missing a key, which would raise KeyError in `record_result`, is not modelled either.
- `UserData.get_username`, and the `username` and `opponent_username` display names of `PongGame`, are used only for display and are left out.
- `user_data` being `None` is not modelled: a game always has a profile. In the source the online modes would then raise AttributeError and end the game, and `run` would skip `record_result`.
- Pong.PongGame.UpdateOnline: requires `user.Valid()`, and so does `Run`, so a profile always has a `vs_online` tally. A saved profile without one would raise KeyError when the record is built (pypong.py:196 and 206), which `update_online` catches to end the game; that path is not modelled.
- The game mode is one of the four tags the menu passes in. A `PongGame` built with any other string is not modelled.
- Strings.ParseInt: accepts only the digits `0` to `9`, where `int()` also accepts non-ASCII decimal digits such as Arabic-Indic ones. It also has no digit limit, while CPython 3.11 and later raise ValueError in `int()` and `str()` beyond 4300 digits, so `Strings.ParseIntToString` holds only below that limit in CPython. Game values never come near it.
- Pong.PongGame.Run: stops when its script of inputs runs out, where the source loops until game over. It does not report the lines sent on each pass; `UpdateOnline`'s contract states each one.
- The `main_menu` loop, its settings and the unused `threading` import are UI and are not modelled.
