/** The store of game records keyed by room identifier, and the HTTP
    handlers of `controllers/battleship.js` that read it and write it.

    `Step` is the whole effect of one handler on the store: the missing-field
    check, the lookup, the guard chain of module `Battleship` and the write.
    Class `Store` holds the records and performs the same steps in place. */
module GameStore {
  import opened Nullable
  import opened Battleship

  type Games = map<string, Game>

  /** One request to a mutating handler, with the body fields it reads. */
  datatype Request =
    | CreateGame(roomID: Option<string>, player1: Option<string>, password: Option<string>)
    | JoinGame(roomID: Option<string>, player: Option<string>, password: Option<string>)
    | StartGame(roomID: Option<string>, player: Option<string>)
    | LeaveGame(roomID: Option<string>, player: Option<string>)
    | KickPlayer(roomID: Option<string>, player: Option<string>)
    | UpdateGameBoard(roomID: Option<string>, player: Option<string>, board: Option<string>)

  datatype Response = Response(reply: Reply, games: Games)

  /** The record stored under `roomID`, if any (`findOne({ roomID })`). */
  function Find(games: Games, roomID: string): (r: Option<Game>)
    ensures r.Some? <==> roomID in games
    ensures r.Some? ==> r.value == games[roomID]
  {
    if roomID in games then Some(games[roomID]) else None
  }

  /** The store after a handler's write under `roomID`. */
  function Apply(games: Games, roomID: string, e: Effect): (r: Games)
    ensures forall k :: k != roomID ==> (k in r <==> k in games)
    ensures forall k :: k != roomID && k in r ==> r[k] == games[k]
    ensures e.Keep? ==> r == games
    ensures e.Put? ==> roomID in r && r[roomID] == e.game
    ensures e.Remove? ==> roomID !in r
  {
    match e
    case Keep => games
    case Put(g) => games[roomID := g]
    case Remove => games - {roomID}
  }

  /** The missing-field check every handler runs first: the room identifier
      and the acting player must be truthy, and a move must carry a truthy
      board. */
  function HasRequiredFields(req: Request): (ok: bool)
    ensures ok <==> && Truthy(req.roomID)
                    && Truthy(if req.CreateGame? then req.player1 else req.player)
                    && (req.UpdateGameBoard? ==> Truthy(req.board))
  {
    match req
    case CreateGame(roomID, player1, _) => Truthy(roomID) && Truthy(player1)
    case JoinGame(roomID, player, _) => Truthy(roomID) && Truthy(player)
    case StartGame(roomID, player) => Truthy(roomID) && Truthy(player)
    case LeaveGame(roomID, player) => Truthy(roomID) && Truthy(player)
    case KickPlayer(roomID, player) => Truthy(roomID) && Truthy(player)
    case UpdateGameBoard(roomID, player, board) => Truthy(roomID) && Truthy(player) && Truthy(board)
  }

  /** The guard chain a request runs once its fields are present. */
  function Decide(games: Games, req: Request): Decision
    requires HasRequiredFields(req)
  {
    var found := Find(games, req.roomID.value);
    match req
    case CreateGame(_, player1, password) => CreateRules(found, player1.value, password)
    case JoinGame(_, player, password) => JoinRules(found, player.value, password)
    case StartGame(_, player) => StartRules(found, player.value)
    case LeaveGame(_, player) => LeaveRules(found, player.value)
    case KickPlayer(_, player) => KickRules(found, player.value)
    case UpdateGameBoard(_, player, board) => UpdateRules(found, player.value, board.value)
  }

  /** One handler call: a request with a missing field is answered with
      `MissingFields`; otherwise the guard chain decides and its write is
      applied under the request's room identifier. Only that record can
      change, and a refused request changes nothing. */
  function Step(games: Games, req: Request): (r: Response)
    ensures r.reply.Failure? ==> r.games == games
    ensures r.reply == Failure(MissingFields) <==> !HasRequiredFields(req)
    ensures forall k :: k in games && k !in r.games ==> req.roomID == Some(k)
    ensures forall k :: k in r.games && (k !in games || r.games[k] != games[k]) ==> req.roomID == Some(k)
  {
    if !HasRequiredFields(req) then Response(Failure(MissingFields), games)
    else
      var d := Decide(games, req);
      Response(d.reply, Apply(games, req.roomID.value, d.effect))
  }

  /** The store after a sequence of requests handled one after another. */
  function Run(games: Games, reqs: seq<Request>): Games
    decreases |reqs|
  {
    if reqs == [] then games else Run(Step(games, reqs[0]).games, reqs[1..])
  }

  ghost predicate AllConsistent(games: Games) {
    forall k :: k in games ==> Consistent(games[k])
  }

  // ---------------------------------------------------------------------
  // Properties of single handlers, stated on the store
  // ---------------------------------------------------------------------

  /** `createGame` refuses a room identifier that is taken and leaves the
      store alone; otherwise it adds exactly one waiting record with no guest,
      empty boards, no turn, no winner and the password normalised to null
      when it is falsy. */
  lemma CreateAddsOneRecord(games: Games, roomID: string, player1: string, password: Option<string>)
    requires roomID != "" && player1 != ""
    ensures var r := Step(games, CreateGame(Some(roomID), Some(player1), password));
            && (roomID in games ==> r.reply == Failure(GameExists) && r.games == games)
            && (roomID !in games ==>
                  && r.reply == Success(Created(Truthy(password)))
                  && r.games.Keys == games.Keys + {roomID}
                  && |r.games| == |games| + 1
                  && r.games[roomID] == Game(Some(player1), None, "", "", Waiting, OrNull(password), None, None)
                  && (forall k :: k in games ==> r.games[k] == games[k]))
  {
  }

  /** `updateGameBoard` refuses a move without a board, or with an empty
      one, before it looks the room up, and changes nothing. */
  lemma EmptyBoardRefused(games: Games, roomID: Option<string>, player: Option<string>, board: Option<string>)
    requires board == None || board == Some("")
    ensures Step(games, UpdateGameBoard(roomID, player, board)) == Response(Failure(MissingFields), games)
  {
  }

  /** Each handler keeps every stored record consistent. */
  lemma StepKeepsConsistent(games: Games, req: Request)
    requires AllConsistent(games)
    ensures AllConsistent(Step(games, req).games)
  {
  }

  /** Starting from any store of consistent records (the empty store among
      them), every record stays consistent whatever requests follow. In
      particular an active game always has a guest whose name differs from
      the host's, the turn is the host's or the guest's, and a winner is
      recorded exactly in completed games. */
  lemma {:induction false} RunKeepsConsistent(games: Games, reqs: seq<Request>)
    requires AllConsistent(games)
    ensures AllConsistent(Run(games, reqs))
    decreases |reqs|
  {
    if reqs != [] {
      StepKeepsConsistent(games, reqs[0]);
      RunKeepsConsistent(Step(games, reqs[0]).games, reqs[1..]);
    }
  }

  /** Corollary for a server that starts with an empty collection. */
  lemma {:induction false} ReachableActiveGamesHaveTwoPlayers(reqs: seq<Request>, roomID: string)
    requires roomID in Run(map[], reqs)
    ensures var g := Run(map[], reqs)[roomID];
            && Truthy(g.player1)
            && (g.status == Active ==> g.player2.Some? && g.player2 != g.player1
                                       && (g.turn == g.player1 || g.turn == g.player2))
            && (g.winner.Some? <==> g.status == Completed)
  {
    RunKeepsConsistent(map[], reqs);
  }

  // ---------------------------------------------------------------------
  // getAllRooms
  // ---------------------------------------------------------------------

  /** The fields `getAllRooms` selects for each record. The password is among
      them, as the source selects it. */
  datatype RoomSummary = RoomSummary(
    roomID: string, player1: Option<string>, player2: Option<string>,
    status: Status, password: Option<string>)

  function Summary(roomID: string, g: Game): (s: RoomSummary)
    ensures s.roomID == roomID
  {
    RoomSummary(roomID, g.player1, g.player2, g.status, g.password)
  }

  /** The listing: one summary per stored record. */
  function Listing(games: Games): (rooms: set<RoomSummary>)
    ensures forall s :: s in rooms <==> s.roomID in games && s == Summary(s.roomID, games[s.roomID])
  {
    set k | k in games :: Summary(k, games[k])
  }

  /** The listing has exactly as many entries as the store has records. */
  lemma {:induction false} ListingSize(games: Games)
    ensures |Listing(games)| == |games|
    decreases |games|
  {
    if games != map[] {
      var k :| k in games;
      var rest := games - {k};
      ListingSize(rest);
      assert Listing(games) == Listing(rest) + {Summary(k, games[k])};
      assert Summary(k, games[k]) !in Listing(rest);
      assert |games| == |rest| + 1 by {
        assert games.Keys == rest.Keys + {k};
      }
    }
  }

  // ---------------------------------------------------------------------
  // The store, updated in place
  // ---------------------------------------------------------------------

  class Store {
    var games: Games

    constructor ()
      ensures games == map[]
    {
      games := map[];
    }

    /** The write a handler performs once its checks pass. */
    method Commit(roomID: string, e: Effect)
      modifies this
      ensures games == Apply(old(games), roomID, e)
    {
      match e {
        case Keep =>
        case Put(g) => games := games[roomID := g];
        case Remove => games := games - {roomID};
      }
    }

    method CreateGame(roomID: Option<string>, player1: Option<string>, password: Option<string>) returns (r: Reply)
      modifies this
      ensures Response(r, games) == Step(old(games), Request.CreateGame(roomID, player1, password))
    {
      if !Truthy(roomID) || !Truthy(player1) {
        return Failure(MissingFields);
      }
      var d := CreateRules(Find(games, roomID.value), player1.value, password);
      Commit(roomID.value, d.effect);
      r := d.reply;
    }

    method JoinGame(roomID: Option<string>, player: Option<string>, password: Option<string>) returns (r: Reply)
      modifies this
      ensures Response(r, games) == Step(old(games), Request.JoinGame(roomID, player, password))
    {
      if !Truthy(roomID) || !Truthy(player) {
        return Failure(MissingFields);
      }
      var d := JoinRules(Find(games, roomID.value), player.value, password);
      Commit(roomID.value, d.effect);
      r := d.reply;
    }

    method StartGame(roomID: Option<string>, player: Option<string>) returns (r: Reply)
      modifies this
      ensures Response(r, games) == Step(old(games), Request.StartGame(roomID, player))
    {
      if !Truthy(roomID) || !Truthy(player) {
        return Failure(MissingFields);
      }
      var d := StartRules(Find(games, roomID.value), player.value);
      Commit(roomID.value, d.effect);
      r := d.reply;
    }

    method LeaveGame(roomID: Option<string>, player: Option<string>) returns (r: Reply)
      modifies this
      ensures Response(r, games) == Step(old(games), Request.LeaveGame(roomID, player))
    {
      if !Truthy(roomID) || !Truthy(player) {
        return Failure(MissingFields);
      }
      var d := LeaveRules(Find(games, roomID.value), player.value);
      Commit(roomID.value, d.effect);
      r := d.reply;
    }

    method KickPlayer(roomID: Option<string>, player: Option<string>) returns (r: Reply)
      modifies this
      ensures Response(r, games) == Step(old(games), Request.KickPlayer(roomID, player))
    {
      if !Truthy(roomID) || !Truthy(player) {
        return Failure(MissingFields);
      }
      var d := KickRules(Find(games, roomID.value), player.value);
      Commit(roomID.value, d.effect);
      r := d.reply;
    }

    method UpdateGameBoard(roomID: Option<string>, player: Option<string>, board: Option<string>) returns (r: Reply)
      modifies this
      ensures Response(r, games) == Step(old(games), Request.UpdateGameBoard(roomID, player, board))
    {
      if !Truthy(roomID) || !Truthy(player) || !Truthy(board) {
        return Failure(MissingFields);
      }
      var d := UpdateRules(Find(games, roomID.value), player.value, board.value);
      Commit(roomID.value, d.effect);
      r := d.reply;
    }

    /** `getGame`: the stored record under a present room identifier. */
    method GetGame(roomID: Option<string>) returns (r: Reply)
      ensures !Truthy(roomID) ==> r == Failure(MissingFields)
      ensures Truthy(roomID) && roomID.value !in games ==> r == Failure(NotFound)
      ensures r.Success? <==> Truthy(roomID) && roomID.value in games
      ensures r.Success? ==> r.data == Found(games[roomID.value])
    {
      if !Truthy(roomID) {
        return Failure(MissingFields);
      }
      if roomID.value !in games {
        return Failure(NotFound);
      }
      r := Success(Found(games[roomID.value]));
    }

    /** `getAllRooms`: a summary of every record and their number. */
    method GetAllRooms() returns (items: set<RoomSummary>, count: nat)
      ensures items == Listing(games)
      ensures forall k :: k in games ==> Summary(k, games[k]) in items
      ensures count == |items| == |games|
    {
      items := set k | k in games :: Summary(k, games[k]);
      ListingSize(games);
      count := |items|;
    }
  }
}
