# Raja-Mantri game server, modelled in Dafny

This is a model of the game backend in `main.py`. The server is a FastAPI
process with two in-memory tables:

- `rooms` maps a room id to its roster, status, role map, Mantri, guess,
  round scores and leaderboard;
- `players` maps a player id to the player's name, room and running total.

Each HTTP endpoint reads or updates these tables. The model has two modules.

- `scoring.dfy` (module `Scoring`) is the pure part:
  - the four roles and the `BASE_POINTS` table;
  - the `next(...)` search for the holder of a role, taken in roster order;
  - the round score map that `mantri_guess` builds;
  - lemmas proving that a deal is a bijection, that the first holder of a
    role is its only holder, that each player scores what their role and
    the guess give, and that a round always adds up to 2300.
- `game.dfy` (module `Game`) holds the tables:
  - a class `Store` with the two tables as `map` fields and one member per
    endpoint;
  - the room and table invariants (`RoomOk`, `Consistent`, kept as
    `Store.Valid`);
  - the loops of `assign_roles` and `mantri_guess`, written as `while` loops
    with invariants (`DealRoles`, `Store.Credit`).

Values from outside the server become parameters:

- The two `uuid4` ids of `create_room` and the one of `join_room` are passed
  in. The caller must supply ids that are not yet in use, which is what uuid
  generation provides.
- The list that `random.shuffle` produces is passed to
  `Store.AssignRoles`. It may be any permutation of `["Raja", "Mantri",
  "Chor", "Sipahi"]`, so every property proved holds for every possible
  shuffle.

The model follows what the code does, including where a reader might expect
more of a game server:

- The status is only ever `"waiting"` or `"finished"`. The code writes no
  "assigned" status after a deal.
- `assign_roles` does not check the status. A room of four can be dealt
  again, even after its round has finished. The deal keeps the status, the
  guess, the scores and the leaderboard. So no "one deal per round"
  property is stated.
- `get_my_role` on a room that has never been dealt looks up a missing
  `"roles"` key, so the server raises a `KeyError` (an HTTP 500). The model
  answers `NotFound` there.
- `get_my_role` reports its errors as a JSON body, not as an HTTP status.
  The model uses `NotFound` for both of its error cases.
- A full room is refused with an HTTP 400, the same status as a room that
  is not waiting. The model gives it its own error kind, `Full`.

Python dicts iterate in insertion order. Both `room_roles` and
`round_scores` are filled while walking the roster, so every `.items()`
loop in the source visits players in roster order. The model walks the
roster wherever the source walks one of these dicts.

## Model

| member | source | states |
|---|---|---|
| Scoring.BasePoints | main.py:133 | The base point table ranks Raja (1000) above Mantri above Sipahi above Chor, and only the Chor scores 0. The Mantri's 800 and the Sipahi's 500 are the table's entries; `RoundTotal` (2300) and `GuessScores` (the Chor's 0 + 800) depend on them. |
| Scoring.FirstHolder | main.py:111 | The search returns a player of the roster who holds the role, or None only when no player of the roster holds it. |
| Scoring.FirstHolderIsFirst | main.py:111 | The search stops at the first holder in roster order: every player holding the role stands at or after the one returned. |
| Scoring.ShuffleIsDistinct | main.py:100-101 | Any shuffle of the four role names lists four different roles, one per position. |
| Scoring.RolesAreBijection | main.py:104-111 | After a deal of four roles to four players, no two players hold the same role and every role has a holder, so `next(...)` never fails. |
| Scoring.HolderIsUnique | main.py:111 | In a deal, a player holds the searched role exactly when they are the player the search returns. |
| Scoring.RoundScores | main.py:160-169 | The round score map has exactly the players of the role map as keys, and no score is negative. A correct guess gives everyone their base points. A wrong guess leaves the Mantri 0. |
| Scoring.GuessScores | main.py:158-169 | With the real Chor and Mantri, the guess is correct exactly when the target holds the Chor role. Each player then scores by role: base points on a correct guess; on a wrong one the Chor gets 0 + 800, the Mantri 0 and the others their base points. |
| Scoring.RoundTotal | main.py:133-169 | The four round scores always add up to 2300, whichever player the Mantri names. |
| Game.NewRoom | main.py:34-37 | A new room holds just its creator, is waiting, has nothing dealt, guessed or scored and an empty leaderboard, and satisfies the room invariant. |
| Game.ReplaceRoom | main.py:108-112 | Replacing a room by a well-formed room with the same roster keeps both tables consistent. |
| Game.MembersArePlayers | main.py:79 | Every member of a roster has an entry in the players table, so the name lookup of `get_players` has an entry to read. |
| Game.HasChor | main.py:158 | A dealt room has a Chor, so the search for the real Chor finds one. |
| Game.ScoreFacts | main.py:157-169 | For a dealt room, the score map covers exactly the roster and the guess is correct exactly when the target is the Chor. Every player gets their role's points, and the total is 2300. |
| Game.RecordRound | main.py:172-182 | Once the guess, scores, finished status and raised leaderboard are saved, the room records the round as `RoundRecorded` describes and stays well formed. |
| Game.GuessError | main.py:145-155 | The five checks of `mantri_guess`, in the server's order: 404 for an unknown room, 400 for a room not dealt, 404 when either id is not in its roster, 403 when the guesser is not the recorded Mantri, 400 for a finished round; each error is stated for exactly the case where the earlier checks passed. All five pass exactly when: the room exists and is dealt; both ids are in its roster; the guesser is the recorded Mantri; and the round is not finished. |
| Game.ReadyToScore | main.py:157-161 | For a guess that passes the checks, the room has a Chor, and every roster member has a round score and a player entry. The score map lists only roster members. |
| Game.RoundSettled | main.py:172-184 | Scoring a guess that passes the checks keeps the tables consistent, and the room records the round as `RoundRecorded` says. No total decreases. Afterwards every guess in that room is refused, and the same Mantri's repeat gets the 400 "already finished". |
| Game.DealRoles | main.py:104-106 | Player i of the roster gets role i of the shuffled list, and the role map has exactly the roster as keys. |
| Game.Store.constructor | main.py:9-10 | Both tables start empty, which satisfies the invariant. |
| Game.Store.CreateRoom | main.py:31-39 | Adds exactly one room, whose roster is just its creator, status waiting and nothing dealt. Adds exactly one player, with that name, that room and total 0. Nothing else changes and the invariant holds. |
| Game.Store.JoinRoom | main.py:49-66 | The join succeeds exactly when the room exists, is waiting and has fewer than four players. Three errors, in order: 404 for an unknown room, 400 for a room not waiting, 400 for a roster of four. An error changes nothing. Otherwise exactly the new id is appended to the roster and exactly one player with total 0 is added. The new size, at most 4, is returned. |
| Game.Store.GetPlayers | main.py:72-85 | Unknown room gives 404. Otherwise the listing has one entry per roster member, in join order, each with that player's id and name. |
| Game.Store.AssignRoles | main.py:91-118 | The deal succeeds exactly when the room exists and has four players. 404 for an unknown room and 400 unless the roster has four players; an error changes nothing. Otherwise only the room's role map and Mantri change: the role map dealt from the shuffle over exactly the roster, and the Mantri its unique holder. Roster, status and the players table are unchanged. |
| Game.Store.GetMyRole | main.py:122-131 | A role is returned exactly when the room exists and has dealt the player a role. It is the dealt role, and the player is in the room's roster. Every other case is NotFound. |
| Game.Store.MantriGuess | main.py:143-184 | Fails exactly when one of the five checks fails, with that check's error, and then changes nothing. Otherwise only that room and the totals change. The room records the round as `RoundRecorded` says, and each player's total rises by their round score exactly once. No total decreases, and every later guess in the room is refused, the same Mantri's with 400. |
| Game.Store.Credit | main.py:177-182 | The loop over the round scores adds each player's score to their total exactly once, and to the leaderboard, where an absent entry counts as 0. No other player's total changes. |
| Game.Store.GetResult | main.py:187-199 | The result is returned exactly when the room exists and is finished. 404 for an unknown room, 400 for a room not finished. Otherwise the result reports the room's roles, guess, round scores and leaderboard, and the guess and scores are present. |

## Left out

- HTTP and FastAPI: routing, the request models, status codes as numbers,
  the `home` endpoint and the reply messages. Each error is one `Error`
  value, and each reply is reduced to the data it carries.
- `uuid.uuid4`: ids are an abstract type with equality only, passed in as
  parameters. Freshness is a precondition rather than a probability.
- `random.shuffle`: the shuffled list is a parameter, constrained only to
  be a permutation of the four roles.
- Concurrency: the server's requests are taken one at a time.
- Store.GetMyRole: answers NotFound where the server raises a `KeyError`,
  on a room that has never been dealt.
- Store.JoinRoom: returns the new roster size instead of the
  "Joined room (n/4)" message. The message text is not modelled.
- Store.MantriGuess: the `players.get(pid, {}).get("totalScore", 0)` and
  `room.setdefault("leaderboard", {})` fallbacks are modelled as direct
  reads. Every roster member is a player, and every room carries a possibly
  empty leaderboard from creation. This matches `get_result`, which reads a
  missing leaderboard as `{}`.
- The order of keys inside the returned score, role and leaderboard maps.
  Dafny maps are unordered. Wherever the source iterates one of these maps
  (the two `next(...)` searches and the credit loop), the model walks the
  roster, which is their insertion order. No result depends on that order:
  each role has one holder and each player is credited once.
- Player names are kept as given. The request model's validation of the
  JSON body is not modelled.
