/**
 * The in-memory game server: the process-wide `rooms` and `players` tables
 * and one operation per endpoint (create, join, list players, assign roles,
 * read own role, the Mantri's guess, read the result).
 */
module Game {
  import opened Scoring

  /** The HTTP error kinds: 404, 400 (wrong state), 403, and the 400 for a full room. */
  datatype Error = NotFound | BadState | Forbidden | Full

  datatype Result<T> = Ok(value: T) | Err(error: Error)

  /** The server only ever writes "waiting" and "finished"; there is no "assigned" status. */
  datatype Status = Waiting | Finished

  datatype Guess = Guess(madeBy: Id, target: Id)

  /** An entry of the `players` table. */
  datatype Player = Player(name: string, roomId: Id, totalScore: int)

  /**
   * An entry of the `rooms` table. An empty `roles` map stands for a room with
   * no "roles" key; `scores` is None until a guess has been scored.
   */
  datatype Room = Room(
    roster: seq<Id>,
    status: Status,
    roles: map<Id, Role>,
    mantriId: Option<Id>,
    guess: Option<Guess>,
    scores: Option<map<Id, int>>,
    leaderboard: map<Id, int>)

  /** One line of the player listing. */
  datatype Listing = Listing(playerId: Id, name: string)

  /** What the Mantri's guess returns: whether it named the Chor, and the round scores. */
  datatype GuessOutcome = GuessOutcome(correct: bool, roundScores: map<Id, int>)

  /** What the result endpoint returns. */
  datatype RoundResult = RoundResult(
    roles: map<Id, Role>,
    guess: Option<Guess>,
    roundScores: Option<map<Id, int>>,
    leaderboard: map<Id, int>)

  /** A freshly created room: its creator alone, waiting, nothing assigned. */
  function NewRoom(creator: Id): (room: Room)
    ensures room.roster == [creator] && room.status == Waiting
    ensures room.roles == map[] && room.mantriId == None && room.guess == None && room.scores == None
    ensures room.leaderboard == map[]
    ensures RoomOk(room)
  {
    Room([creator], Waiting, map[], None, None, None, map[])
  }

  /** The value of `m.get(k, 0)`. */
  function GetOrZero(m: map<Id, int>, k: Id): int
  {
    if k in m then m[k] else 0
  }

  /**
   * What every room satisfies: one to four distinct players; a role map that
   * is either absent or a dealing of the four roles to the four players, with
   * the Mantri recorded; and a finished room has its guess and scores.
   */
  ghost predicate RoomOk(room: Room)
  {
    && 1 <= |room.roster| <= 4
    && Distinct(room.roster)
    && (room.roles == map[] ==> room.mantriId == None)
    && (room.roles != map[] ==>
          RolesFit(room.roster, room.roles)
          && room.mantriId == FirstHolder(room.roster, room.roles, Mantri))
    && (room.status == Finished ==> room.roles != map[] && room.guess.Some? && room.scores.Some?)
    && room.leaderboard.Keys <= (set p | p in room.roster)
  }

  /** Every room is well formed and every member of a roster is a player of that room. */
  ghost predicate Consistent(rooms: map<Id, Room>, players: map<Id, Player>)
  {
    && (forall id :: id in rooms ==> RoomOk(rooms[id]))
    && (forall id, p :: id in rooms && p in rooms[id].roster ==> p in players && players[p].roomId == id)
  }

  /** Replacing a room by a well-formed one with the same roster keeps the tables consistent. */
  lemma ReplaceRoom(rooms: map<Id, Room>, players: map<Id, Player>, id: Id, room: Room)
    requires Consistent(rooms, players) && id in rooms
    requires RoomOk(room) && room.roster == rooms[id].roster
    ensures Consistent(rooms[id := room], players)
  {
    var rooms' := rooms[id := room];
    forall k | k in rooms'
      ensures RoomOk(rooms'[k])
    {
      if k != id {
        assert rooms'[k] == rooms[k];
        assert RoomOk(rooms[k]);
      }
    }
  }

  /** Every member of a roster, by position, is a player. */
  lemma MembersArePlayers(rooms: map<Id, Room>, players: map<Id, Player>, id: Id)
    requires Consistent(rooms, players) && id in rooms
    ensures forall i :: 0 <= i < |rooms[id].roster| ==> rooms[id].roster[i] in players
  {
    forall i | 0 <= i < |rooms[id].roster|
      ensures rooms[id].roster[i] in players
    {
      assert rooms[id].roster[i] in rooms[id].roster;
    }
  }

  /** Changing only the totals of existing players keeps the tables consistent. */
  lemma RescorePlayers(rooms: map<Id, Room>, players: map<Id, Player>, players': map<Id, Player>)
    requires Consistent(rooms, players)
    requires players'.Keys == players.Keys
    requires forall p :: p in players ==> players'[p].roomId == players[p].roomId
    ensures Consistent(rooms, players')
  {
  }

  /**
   * What a scored guess leaves in its room: the guess, the round scores and
   * the finished status recorded and nothing else of the room changed but its
   * leaderboard; the guess is correct exactly when the target is the Chor;
   * every player scores what GuessPoints gives their role, 2300 in all; and
   * each round score is added to the player's leaderboard entry.
   */
  ghost predicate RoundRecorded(was: Room, now: Room, mantriId: Id, target: Id, outcome: GuessOutcome)
  {
    var scores := outcome.roundScores;
    && now == was.(status := Finished, guess := Some(Guess(mantriId, target)),
                   scores := Some(scores), leaderboard := now.leaderboard)
    && target in was.roles
    && (outcome.correct <==> was.roles[target] == Chor)
    && scores.Keys == (set p | p in was.roster) == was.roles.Keys
    && (forall p :: p in was.roster ==> scores[p] == GuessPoints(was.roles[p], outcome.correct))
    && SumOver(was.roster, scores) == RoundPool
    && now.leaderboard.Keys == scores.Keys
    && (forall p :: p in scores ==> now.leaderboard[p] == GetOrZero(was.leaderboard, p) + scores[p])
  }

  /** Each player's total grows by their round score (0 for a player not in the round); nothing else changes. */
  ghost predicate TotalsCredited(before: map<Id, Player>, after: map<Id, Player>, scores: map<Id, int>)
  {
    && after.Keys == before.Keys
    && forall p :: p in after ==>
         after[p] == before[p].(totalScore := before[p].totalScore + GetOrZero(scores, p))
  }

  /** A dealt room has a Chor. */
  lemma HasChor(room: Room)
    requires RoomOk(room) && room.roles != map[]
    ensures FirstHolder(room.roster, room.roles, Chor).Some?
  {
    RolesAreBijection(room.roster, room.roles);
  }

  /** The facts about the round scores of a dealt room that mantri_guess relies on. */
  lemma ScoreFacts(room: Room, chor: Id, mantri: Id, target: Id)
    requires RoomOk(room) && room.roles != map[]
    requires FirstHolder(room.roster, room.roles, Chor) == Some(chor)
    requires room.mantriId == Some(mantri)
    requires target in room.roster
    ensures chor in room.roles && mantri in room.roles && target in room.roles
    ensures var scores := RoundScores(room.roles, chor, mantri, target);
      && scores.Keys == (set p | p in room.roster)
      && (target == chor <==> room.roles[target] == Chor)
      && (forall p :: p in room.roster ==> scores[p] == GuessPoints(room.roles[p], target == chor))
      && SumOver(room.roster, scores) == RoundPool
  {
    GuessScores(room.roster, room.roles, chor, mantri, target);
    RoundTotal(room.roster, room.roles, chor, mantri, target);
  }

  /** The room that a scored guess leaves behind is recorded as RoundRecorded says and stays well formed. */
  lemma RecordRound(was: Room, chor: Id, mantri: Id, target: Id, board: map<Id, int>)
    requires RoomOk(was) && was.roles != map[]
    requires FirstHolder(was.roster, was.roles, Chor) == Some(chor)
    requires was.mantriId == Some(mantri)
    requires target in was.roster
    requires chor in was.roles && mantri in was.roles
    requires var scores := RoundScores(was.roles, chor, mantri, target);
      && board.Keys == was.leaderboard.Keys + scores.Keys
      && forall p :: p in board ==> board[p] == GetOrZero(was.leaderboard, p) + GetOrZero(scores, p)
    ensures var scores := RoundScores(was.roles, chor, mantri, target);
      var now := was.(guess := Some(Guess(mantri, target)), scores := Some(scores), status := Finished,
                      leaderboard := board);
      RoundRecorded(was, now, mantri, target, GuessOutcome(target == chor, scores)) && RoomOk(now)
  {
    ScoreFacts(was, chor, mantri, target);
  }

  /**
   * The five checks of mantri_guess, in the server's order; None when the
   * guess may be scored.
   */
  function GuessError(rooms: map<Id, Room>, roomId: Id, mantriId: Id, target: Id): (e: Option<Error>)
    ensures e.None? <==>
      && roomId in rooms
      && rooms[roomId].roles != map[]
      && mantriId in rooms[roomId].roster && target in rooms[roomId].roster
      && rooms[roomId].mantriId == Some(mantriId)
      && rooms[roomId].status != Finished
    ensures roomId !in rooms ==> e == Some(NotFound)
    ensures roomId in rooms && rooms[roomId].roles == map[] ==> e == Some(BadState)
    ensures (&& roomId in rooms && rooms[roomId].roles != map[]
             && (mantriId !in rooms[roomId].roster || target !in rooms[roomId].roster))
      ==> e == Some(NotFound)
    ensures (&& roomId in rooms && rooms[roomId].roles != map[]
             && mantriId in rooms[roomId].roster && target in rooms[roomId].roster
             && rooms[roomId].mantriId != Some(mantriId))
      ==> e == Some(Forbidden)
    ensures (&& roomId in rooms && rooms[roomId].roles != map[]
             && mantriId in rooms[roomId].roster && target in rooms[roomId].roster
             && rooms[roomId].mantriId == Some(mantriId) && rooms[roomId].status == Finished)
      ==> e == Some(BadState)
  {
    if roomId !in rooms then Some(NotFound)
    else if rooms[roomId].roles == map[] then Some(BadState)
    else if mantriId !in rooms[roomId].roster || target !in rooms[roomId].roster then Some(NotFound)
    else if rooms[roomId].mantriId != Some(mantriId) then Some(Forbidden)
    else if rooms[roomId].status == Finished then Some(BadState)
    else None
  }

  /** Every further guess in the room is refused, whoever makes it and whoever it names. */
  ghost predicate Closed(rooms: map<Id, Room>, roomId: Id)
  {
    forall b, t :: GuessError(rooms, roomId, b, t).Some?
  }

  /** A guess that passes the checks can be scored: the room has a Chor and a score for every member. */
  lemma ReadyToScore(rooms: map<Id, Room>, players: map<Id, Player>, roomId: Id, mantriId: Id, target: Id)
    requires Consistent(rooms, players)
    requires GuessError(rooms, roomId, mantriId, target) == None
    ensures var room := rooms[roomId];
      && FirstHolder(room.roster, room.roles, Chor).Some?
      && mantriId in room.roles
      && var scores := RoundScores(room.roles, FirstHolder(room.roster, room.roles, Chor).value, mantriId, target);
         && Distinct(room.roster)
         && (forall i :: 0 <= i < |room.roster| ==> room.roster[i] in scores && room.roster[i] in players)
         && (forall p :: p in scores ==> p in room.roster)
  {
    var room := rooms[roomId];
    assert RoomOk(room);
    HasChor(room);
    var chor := FirstHolder(room.roster, room.roles, Chor).value;
    ScoreFacts(room, chor, mantriId, target);
    MembersArePlayers(rooms, players, roomId);
  }

  /**
   * Scoring a guess that passes the checks, with every total credited as
   * TotalsCredited says and the leaderboard raised by the round scores:
   * the tables stay consistent, the room records the round as RoundRecorded
   * says, no total decreases, and any further guess in the room is refused
   * (with 400, for the Mantri who just guessed).
   */
  lemma RoundSettled(rooms: map<Id, Room>, players: map<Id, Player>, players': map<Id, Player>,
                     roomId: Id, mantriId: Id, target: Id, board: map<Id, int>)
    requires Consistent(rooms, players)
    requires GuessError(rooms, roomId, mantriId, target) == None
    requires var room := rooms[roomId];
      && FirstHolder(room.roster, room.roles, Chor).Some?
      && mantriId in room.roles
      && var scores := RoundScores(room.roles, FirstHolder(room.roster, room.roles, Chor).value, mantriId, target);
         && TotalsCredited(players, players', scores)
         && board.Keys == room.leaderboard.Keys + scores.Keys
         && forall p :: p in board ==> board[p] == GetOrZero(room.leaderboard, p) + GetOrZero(scores, p)
    ensures var room := rooms[roomId];
      var chor := FirstHolder(room.roster, room.roles, Chor).value;
      var scores := RoundScores(room.roles, chor, mantriId, target);
      var finished := room.(guess := Some(Guess(mantriId, target)), scores := Some(scores), status := Finished)
                          .(leaderboard := board);
      && Consistent(rooms[roomId := finished], players')
      && RoundRecorded(room, finished, mantriId, target, GuessOutcome(target == chor, scores))
      && (forall p :: p in players' ==> players'[p].totalScore >= players[p].totalScore)
      && GuessError(rooms[roomId := finished], roomId, mantriId, target) == Some(BadState)
      && Closed(rooms[roomId := finished], roomId)
  {
    var room := rooms[roomId];
    assert RoomOk(room);
    var chor := FirstHolder(room.roster, room.roles, Chor).value;
    var scores := RoundScores(room.roles, chor, mantriId, target);
    var finished := room.(guess := Some(Guess(mantriId, target)), scores := Some(scores), status := Finished)
                        .(leaderboard := board);
    RecordRound(room, chor, mantriId, target, board);
    RescorePlayers(rooms, players, players');
    ReplaceRoom(rooms, players', roomId, finished);
  }

  /**
   * The loop of assign_roles: the i-th player of the roster gets the i-th
   * role of the shuffled list.
   */
  method DealRoles(ids: seq<Id>, shuffled: seq<Role>) returns (roles: map<Id, Role>)
    requires Distinct(ids) && |shuffled| == |ids|
    ensures roles.Keys == (set p | p in ids)
    ensures forall i :: 0 <= i < |ids| ==> roles[ids[i]] == shuffled[i]
  {
    roles := map[];
    var i := 0;
    while i < |ids|
      invariant 0 <= i <= |ids|
      invariant roles.Keys == (set p | p in ids[..i])
      invariant forall k :: 0 <= k < i ==> roles[ids[k]] == shuffled[k]
    {
      assert ids[..i + 1] == ids[..i] + [ids[i]];
      roles := roles[ids[i] := shuffled[i]];
      i := i + 1;
    }
    assert ids[..i] == ids;
  }

  class Store {
    var rooms: map<Id, Room>
    var players: map<Id, Player>

    ghost predicate Valid()
      reads this
    {
      Consistent(rooms, players)
    }

    /** The tables are empty when the process starts. */
    constructor ()
      ensures Valid()
      ensures rooms == map[] && players == map[]
    {
      rooms := map[];
      players := map[];
    }

    /** create_room, with the two fresh uuids passed in. */
    method CreateRoom(name: string, roomId: Id, playerId: Id)
      requires Valid()
      requires roomId !in rooms && playerId !in players
      modifies this
      ensures Valid()
      ensures rooms == old(rooms)[roomId := NewRoom(playerId)]
      ensures players == old(players)[playerId := Player(name, roomId, 0)]
      ensures rooms[roomId].roster == [playerId] && rooms[roomId].status == Waiting
    {
      rooms := rooms[roomId := NewRoom(playerId)];
      players := players[playerId := Player(name, roomId, 0)];
    }

    /** join_room, with the fresh uuid of the new player passed in; returns the new roster size. */
    method JoinRoom(roomId: Id, name: string, playerId: Id) returns (r: Result<nat>)
      requires Valid()
      requires playerId !in players
      modifies this
      ensures Valid()
      ensures r.Ok? <==> roomId in old(rooms) && old(rooms[roomId]).status == Waiting && |old(rooms[roomId]).roster| < 4
      ensures roomId !in old(rooms) ==> r == Err(NotFound)
      ensures roomId in old(rooms) && old(rooms[roomId]).status != Waiting ==> r == Err(BadState)
      ensures roomId in old(rooms) && old(rooms[roomId]).status == Waiting && |old(rooms[roomId]).roster| >= 4
        ==> r == Err(Full)
      ensures r.Err? ==> rooms == old(rooms) && players == old(players)
      ensures r.Ok? ==>
        && roomId in old(rooms)
        && old(rooms[roomId]).status == Waiting
        && |old(rooms[roomId]).roster| < 4
        && rooms == old(rooms)[roomId := old(rooms[roomId]).(roster := old(rooms[roomId]).roster + [playerId])]
        && players == old(players)[playerId := Player(name, roomId, 0)]
        && r.value == |rooms[roomId].roster| <= 4
    {
      if roomId !in rooms {
        return Err(NotFound);
      }
      var room := rooms[roomId];
      if room.status != Waiting {
        return Err(BadState);
      }
      if |room.roster| >= 4 {
        return Err(Full);
      }
      rooms := rooms[roomId := room.(roster := room.roster + [playerId])];
      players := players[playerId := Player(name, roomId, 0)];
      r := Ok(|room.roster| + 1);
    }

    /** get_players: the roster, in join order, with each player's name. */
    function GetPlayers(roomId: Id): (r: Result<seq<Listing>>)
      reads this
      requires Valid()
      ensures r.Err? <==> roomId !in rooms
      ensures r.Err? ==> r.error == NotFound
      ensures r.Ok? ==>
        && |r.value| == |rooms[roomId].roster|
        && forall i :: 0 <= i < |r.value| ==>
             r.value[i].playerId == rooms[roomId].roster[i]
             && r.value[i].name == players[r.value[i].playerId].name
    {
      if roomId !in rooms then Err(NotFound)
      else
        var roster, table := rooms[roomId].roster, players;
        Ok(seq(|roster|, i requires 0 <= i < |roster| && roster[i] in table =>
          Listing(roster[i], table[roster[i]].name)))
    }

    /**
     * assign_roles, with the result of random.shuffle passed in. It does not
     * look at the status: a room of four may be dealt again, even after its
     * round is finished, and the status is left as it was.
     */
    method AssignRoles(roomId: Id, shuffled: seq<Role>) returns (r: Result<()>)
      requires Valid()
      requires multiset(shuffled) == multiset(AllRoles)
      modifies this
      ensures Valid()
      ensures players == old(players)
      ensures r.Ok? <==> roomId in old(rooms) && |old(rooms[roomId]).roster| == 4
      ensures roomId !in old(rooms) ==> r == Err(NotFound)
      ensures roomId in old(rooms) && |old(rooms[roomId]).roster| != 4 ==> r == Err(BadState)
      ensures r.Err? ==> rooms == old(rooms)
      ensures r.Ok? ==>
        && roomId in old(rooms) && roomId in rooms
        && |old(rooms[roomId]).roster| == 4
        && rooms == old(rooms)[roomId := rooms[roomId]]
        && var was, now := old(rooms[roomId]), rooms[roomId];
           && now == was.(roles := now.roles, mantriId := now.mantriId)
           && now.roles.Keys == (set p | p in was.roster)
           && (forall i :: 0 <= i < 4 ==> now.roles[was.roster[i]] == shuffled[i])
           && now.mantriId.Some?
           && (forall p :: p in now.roles ==> (now.roles[p] == Mantri <==> p == now.mantriId.value))
    {
      if roomId !in rooms {
        return Err(NotFound);
      }
      var room := rooms[roomId];
      if |room.roster| != 4 {
        return Err(BadState);
      }
      ShuffleIsDistinct(shuffled);
      var roles := DealRoles(room.roster, shuffled);
      assert RolesFit(room.roster, roles);
      var mantri := FirstHolder(room.roster, roles, Mantri);
      RolesAreBijection(room.roster, roles);
      forall p | p in roles
        ensures roles[p] == Mantri <==> p == mantri.value
      {
        HolderIsUnique(room.roster, roles, Mantri, mantri.value, p);
      }
      var dealt := room.(roles := roles, mantriId := mantri);
      assert roles != map[] by { assert room.roster[0] in roles; }
      assert RoomOk(dealt);
      ReplaceRoom(rooms, players, roomId, dealt);
      rooms := rooms[roomId := dealt];
      r := Ok(());
    }

    /**
     * get_my_role. A room with no role map is reported as not found; the
     * server itself raises a KeyError there, since it looks up the missing
     * "roles" key.
     */
    function GetMyRole(roomId: Id, playerId: Id): (r: Result<Role>)
      reads this
      requires Valid()
      ensures r.Ok? <==> roomId in rooms && playerId in rooms[roomId].roles
      ensures r.Err? ==> r.error == NotFound
      ensures r.Ok? ==> r.value == rooms[roomId].roles[playerId] && playerId in rooms[roomId].roster
    {
      if roomId !in rooms then Err(NotFound)
      else if playerId !in rooms[roomId].roles then Err(NotFound)
      else Ok(rooms[roomId].roles[playerId])
    }

    /**
     * mantri_guess: after the five checks, score the round, record the guess,
     * finish the room and add every round score to the player's total and to
     * the room's leaderboard.
     */
    method MantriGuess(roomId: Id, mantriId: Id, target: Id) returns (r: Result<GuessOutcome>)
      requires Valid()
      modifies this
      ensures Valid()
      ensures r.Err? <==> GuessError(old(rooms), roomId, mantriId, target).Some?
      ensures r.Err? ==> r.error == GuessError(old(rooms), roomId, mantriId, target).value
      ensures r.Err? ==> rooms == old(rooms) && players == old(players)
      ensures r.Ok? ==>
        && roomId in old(rooms) && roomId in rooms
        && rooms == old(rooms)[roomId := rooms[roomId]]
        && RoundRecorded(old(rooms[roomId]), rooms[roomId], mantriId, target, r.value)
        && TotalsCredited(old(players), players, r.value.roundScores)
      ensures r.Ok? ==> forall p :: p in players ==> players[p].totalScore >= old(players[p].totalScore)
      ensures r.Ok? ==> GuessError(rooms, roomId, mantriId, target) == Some(BadState)
      ensures r.Ok? ==> Closed(rooms, roomId)
    {
      var check := GuessError(rooms, roomId, mantriId, target);
      if check.Some? {
        return Err(check.value);
      }
      var room := rooms[roomId];
      ReadyToScore(rooms, players, roomId, mantriId, target);
      var chor := FirstHolder(room.roster, room.roles, Chor).value;
      var scores := RoundScores(room.roles, chor, mantriId, target);

      // save round state
      var finished := room.(guess := Some(Guess(mantriId, target)), scores := Some(scores), status := Finished);

      // update cumulative totals, in the order of the score map (the roster order)
      ghost var before := players;
      var leaderboard := Credit(room.roster, scores, room.leaderboard);
      finished := finished.(leaderboard := leaderboard);
      RoundSettled(rooms, before, players, roomId, mantriId, target, leaderboard);
      rooms := rooms[roomId := finished];
      r := Ok(GuessOutcome(target == chor, scores));
    }

    /**
     * The loop at the end of mantri_guess: each listed player's round score is
     * added once to their total and to the leaderboard (absent entries count
     * as 0); nobody else's total changes.
     */
    method Credit(roster: seq<Id>, scores: map<Id, int>, board: map<Id, int>) returns (lb: map<Id, int>)
      requires Distinct(roster)
      requires forall i :: 0 <= i < |roster| ==> roster[i] in scores && roster[i] in players
      requires forall p :: p in scores ==> p in roster
      modifies this`players
      ensures TotalsCredited(old(players), players, scores)
      ensures lb.Keys == board.Keys + scores.Keys
      ensures forall p :: p in lb ==> lb[p] == GetOrZero(board, p) + GetOrZero(scores, p)
    {
      lb := board;
      ghost var done: set<Id> := {};
      var i := 0;
      while i < |roster|
        invariant 0 <= i <= |roster|
        invariant done <= scores.Keys
        invariant forall k :: 0 <= k < i ==> roster[k] in done
        invariant forall k :: i <= k < |roster| ==> roster[k] !in done
        invariant players.Keys == old(players).Keys
        invariant forall p :: p in players ==>
          players[p] == old(players[p]).(totalScore :=
            old(players[p]).totalScore + (if p in done then scores[p] else 0))
        invariant lb.Keys == board.Keys + done
        invariant forall p :: p in lb ==> lb[p] == GetOrZero(board, p) + (if p in done then scores[p] else 0)
      {
        var pid := roster[i];
        var pts := scores[pid];
        players := players[pid := players[pid].(totalScore := players[pid].totalScore + pts)];
        lb := lb[pid := GetOrZero(lb, pid) + pts];
        done := done + {pid};
        i := i + 1;
      }
      assert done == scores.Keys by {
        forall p | p in scores
          ensures p in done
        {
          var k :| 0 <= k < |roster| && roster[k] == p;
        }
      }
    }

    /** get_result: the roles, guess, scores and leaderboard of a finished room. */
    function GetResult(roomId: Id): (r: Result<RoundResult>)
      reads this
      requires Valid()
      ensures r.Ok? <==> roomId in rooms && rooms[roomId].status == Finished
      ensures roomId !in rooms ==> r == Err(NotFound)
      ensures roomId in rooms && rooms[roomId].status != Finished ==> r == Err(BadState)
      ensures r.Ok? ==>
        && roomId in rooms && rooms[roomId].status == Finished
        && r.value.guess.Some? && r.value.roundScores.Some?
        && r.value == RoundResult(rooms[roomId].roles, rooms[roomId].guess,
                                  rooms[roomId].scores, rooms[roomId].leaderboard)
    {
      if roomId !in rooms then Err(NotFound)
      else if rooms[roomId].status != Finished then Err(BadState)
      else
        var room := rooms[roomId];
        Ok(RoundResult(room.roles, room.guess, room.scores, room.leaderboard))
    }
  }
}
