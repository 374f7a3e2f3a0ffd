/** The game record of `models/Battleship.js` and the guard chains of the
    HTTP handlers in `controllers/battleship.js`.

    Every handler reads one record (or finds none), runs a fixed chain of
    checks and then writes the record back, deletes it or leaves it alone.
    The chain itself is pure: each `...Rules` function below takes the record
    the handler found and the request fields it checks, and returns the reply
    together with the write (`Effect`) the handler performs. The store that
    applies the write is in module `GameStore`. */
module Battleship {
  import opened Nullable

  /** The three values the `status` field takes. */
  datatype Status = Waiting | Active | Completed

  /** One stored game. The room identifier is the store's key, so it is not a
      field here. */
  datatype Game = Game(
    player1: Option<string>,
    player2: Option<string>,
    board1: string,
    board2: string,
    status: Status,
    password: Option<string>,
    turn: Option<string>,
    winner: Option<string>)

  /** The `Error.name` strings the handlers answer with. */
  datatype Error =
    | MissingFields
    | GameExists
    | GameNotFound
    | HostNotJoined
    | YouCannotJoinYourOwnGame
    | GameAlreadyFull
    | PasswordRequired
    | IncorrectPassword
    | GameStarted
    | GameError
    | Player2NotFound
    | NotFound
    | PlayerNotFound
    | CannotKickHost
    | CannotKickActivePlayer
    | NotYourTurn
    | NotAPlayer

  /** The four ways `leaveGame` succeeds. */
  datatype LeaveOutcome =
    | HostForfeited(winner: Option<string>)
    | DeletedByHost
    | GuestForfeited(winner: Option<string>)
    | GuestLeft

  /** What a successful handler reports. */
  datatype Data =
    | Created(hasPassword: bool)
    | Joined
    | Started
    | Left(outcome: LeaveOutcome)
    | Kicked
    | BoardSaved(board: string)
    | Found(game: Game)

  datatype Reply = Success(data: Data) | Failure(error: Error)

  /** The write a handler performs on the record under its room identifier. */
  datatype Effect = Keep | Put(game: Game) | Remove

  datatype Decision = Decision(reply: Reply, effect: Effect)

  function Reject(e: Error): (d: Decision)
    ensures d.reply.Failure? && d.effect == Keep
  {
    Decision(Failure(e), Keep)
  }

  /** The record `createGame` stores for a new room. */
  function NewGame(player1: string, password: Option<string>): (g: Game)
    ensures g.status == Waiting && g.player1 == Some(player1)
  {
    Game(Some(player1), None, "", "", Waiting, OrNull(password), None, None)
  }

  /** The invariant every stored record keeps: the host slot is filled, a
      guest is a different non-empty name, the turn belongs to one of the two
      players once a guest is present, an active game has a guest, and a
      winner is recorded exactly when the game is completed. */
  ghost predicate Consistent(g: Game) {
    && Truthy(g.player1)
    && (g.player2.Some? ==> g.player2.value != "" && g.player2 != g.player1)
    && (g.player2.Some? ==> g.turn == g.player1 || g.turn == g.player2)
    && (g.status == Active ==> g.player2.Some?)
    && (g.winner.Some? <==> g.status == Completed)
  }

  // ---------------------------------------------------------------------
  // Guard chains, one per handler, in the order the source checks them.
  // ---------------------------------------------------------------------

  /** `createGame` after its missing-field check. */
  function CreateRules(found: Option<Game>, player1: string, password: Option<string>): (d: Decision)
    ensures d.reply.Failure? <==> d.effect == Keep
  {
    if found.Some? then Reject(GameExists)
    else Decision(Success(Created(Truthy(password))), Put(NewGame(player1, password)))
  }

  /** `joinGame` after its missing-field check. */
  function JoinRules(found: Option<Game>, player: string, password: Option<string>): (d: Decision)
    ensures d.reply.Failure? <==> d.effect == Keep
  {
    if found.None? then Reject(GameNotFound)
    else
      var g := found.value;
      if g.status != Waiting then Reject(GameNotFound)
      else if !Truthy(g.player1) then Reject(HostNotJoined)
      else if g.player1 == Some(player) then Reject(YouCannotJoinYourOwnGame)
      else if Truthy(g.player2) then Reject(GameAlreadyFull)
      else if Truthy(g.password) && !Truthy(password) then Reject(PasswordRequired)
      else if Truthy(g.password) && g.password != password then Reject(IncorrectPassword)
      else
        Decision(Success(Joined),
                 Put(g.(player2 := Some(player), status := Waiting, turn := g.player1, board1 := "", board2 := "")))
  }

  /** `startGame` after its missing-field check. */
  function StartRules(found: Option<Game>, player: string): (d: Decision)
    ensures d.reply.Failure? <==> d.effect == Keep
  {
    if found.None? then Reject(GameNotFound)
    else
      var g := found.value;
      if g.status != Waiting then Reject(GameStarted)
      else if g.player1 != Some(player) then Reject(GameError)
      else if !Truthy(g.player2) then Reject(Player2NotFound)
      else Decision(Success(Started), Put(g.(status := Active)))
  }

  /** `leaveGame` after its missing-field check. */
  function LeaveRules(found: Option<Game>, player: string): (d: Decision)
    ensures d.reply.Failure? <==> d.effect == Keep
  {
    if found.None? then Reject(NotFound)
    else
      var g := found.value;
      if g.player1 == Some(player) then
        if g.status == Active then
          Decision(Success(Left(HostForfeited(g.player2))), Put(g.(winner := g.player2, status := Completed)))
        else
          Decision(Success(Left(DeletedByHost)), Remove)
      else if g.player2 == Some(player) then
        if g.status == Active then
          Decision(Success(Left(GuestForfeited(g.player1))), Put(g.(winner := g.player1, status := Completed)))
        else
          Decision(Success(Left(GuestLeft)), Put(g.(player2 := None, board2 := "")))
      else Reject(PlayerNotFound)
  }

  /** `kickPlayer` after its missing-field check; `player` is the target. */
  function KickRules(found: Option<Game>, player: string): (d: Decision)
    ensures d.reply.Failure? <==> d.effect == Keep
  {
    if found.None? then Reject(GameNotFound)
    else
      var g := found.value;
      if g.player1 == Some(player) then Reject(CannotKickHost)
      else if g.status == Active then Reject(CannotKickActivePlayer)
      else if g.player2 == Some(player) then
        Decision(Success(Kicked),
                 Put(g.(player2 := None, status := Waiting, board1 := "", board2 := "", turn := None, winner := None)))
      else Reject(PlayerNotFound)
  }

  /** `updateGameBoard` after its missing-field check. */
  function UpdateRules(found: Option<Game>, player: string, board: string): (d: Decision)
    ensures d.reply.Failure? <==> d.effect == Keep
  {
    if found.None? then Reject(NotFound)
    else
      var g := found.value;
      if Some(player) != g.turn then Reject(NotYourTurn)
      else if g.player1 == Some(player) then
        Decision(Success(BoardSaved(board)), Put(g.(board1 := board, turn := g.player2)))
      else if g.player2 == Some(player) then
        Decision(Success(BoardSaved(board)), Put(g.(board2 := board, turn := g.player1)))
      else Reject(NotAPlayer)
  }

  // ---------------------------------------------------------------------
  // joinGame
  // ---------------------------------------------------------------------

  /** Every check of `joinGame` that the request fails, in source order. This
      list is an independent statement of the checks: each entry is the
      check's own condition, with no reference to the earlier ones. */
  function JoinFailures(found: Option<Game>, player: string, password: Option<string>): seq<Error> {
    (if found.None? then [GameNotFound] else [])
    + (if found.Some? && found.value.status != Waiting then [GameNotFound] else [])
    + (if found.Some? && !Truthy(found.value.player1) then [HostNotJoined] else [])
    + (if found.Some? && found.value.player1 == Some(player) then [YouCannotJoinYourOwnGame] else [])
    + (if found.Some? && Truthy(found.value.player2) then [GameAlreadyFull] else [])
    + (if found.Some? && Truthy(found.value.password) && !Truthy(password) then [PasswordRequired] else [])
    + (if found.Some? && Truthy(found.value.password) && found.value.password != password then [IncorrectPassword] else [])
  }

  /** `joinGame` reports the first failing check and succeeds only when no
      check fails. */
  lemma JoinReportsFirstFailure(found: Option<Game>, player: string, password: Option<string>)
    ensures var d := JoinRules(found, player, password);
            var fs := JoinFailures(found, player, password);
            (d.reply.Success? <==> fs == []) && (fs != [] ==> d.reply == Failure(fs[0]))
  {
  }

  /** What a successful `joinGame` writes: the guest slot, the host's turn and
      two cleared boards; `status` stays `Waiting`; host, password and winner
      are untouched; host and guest differ afterwards. */
  lemma JoinWrites(g: Game, player: string, password: Option<string>)
    requires JoinRules(Some(g), player, password).reply.Success?
    ensures var e := JoinRules(Some(g), player, password).effect;
            && e.Put?
            && e.game.player2 == Some(player)
            && e.game.turn == g.player1
            && e.game.board1 == "" && e.game.board2 == ""
            && e.game.status == Waiting
            && e.game.player1 == g.player1
            && e.game.password == g.password
            && e.game.winner == g.winner
            && e.game.player1 != e.game.player2
  {
  }

  /** After a successful join, any further join is refused: the host is told
      it cannot join its own game, everyone else that the game is full. */
  lemma SecondJoinRefused(g: Game, player: string, password: Option<string>, other: string, password': Option<string>)
    requires player != ""
    requires JoinRules(Some(g), player, password).reply.Success?
    ensures var g' := JoinRules(Some(g), player, password).effect.game;
            JoinRules(Some(g'), other, password').reply
              == Failure(if Some(other) == g.player1 then YouCannotJoinYourOwnGame else GameAlreadyFull)
  {
  }

  /** Once a guest has left a waiting game or has been kicked, the guest slot
      is open again: a different player with the right password can join. */
  lemma GuestSlotReopens(g: Game, guest: string, newcomer: string, password: Option<string>)
    requires Consistent(g) && g.player2 == Some(guest) && g.status != Active
    requires newcomer != "" && Some(newcomer) != g.player1
    requires password == g.password
    ensures var left := LeaveRules(Some(g), guest);
            left.reply == Success(Left(GuestLeft)) && left.effect.Put?
            && (g.status == Waiting ==> JoinRules(Some(left.effect.game), newcomer, password).reply == Success(Joined))
    ensures var kicked := KickRules(Some(g), guest);
            kicked.reply == Success(Kicked) && kicked.effect.Put?
            && JoinRules(Some(kicked.effect.game), newcomer, password).reply == Success(Joined)
  {
  }

  // ---------------------------------------------------------------------
  // startGame
  // ---------------------------------------------------------------------

  /** `startGame` succeeds exactly when the game is waiting, the requester is
      the host and a guest is present, and then only `status` changes. */
  lemma StartActivatesOnlyFromHost(found: Option<Game>, player: string)
    ensures var d := StartRules(found, player);
            d.reply.Success? <==>
              found.Some? && found.value.status == Waiting
              && found.value.player1 == Some(player) && Truthy(found.value.player2)
    ensures var d := StartRules(found, player);
            d.reply.Success? ==> d.effect == Put(found.value.(status := Active))
  {
  }

  // ---------------------------------------------------------------------
  // leaveGame
  // ---------------------------------------------------------------------

  /** The four outcomes of `leaveGame`, keyed by who leaves and whether the
      game is active; anyone else gets `PlayerNotFound` and nothing changes. */
  lemma LeaveOutcomes(g: Game, player: string)
    ensures var d := LeaveRules(Some(g), player);
            && (g.player1 == Some(player) && g.status == Active ==>
                  d.effect == Put(g.(status := Completed, winner := g.player2)))
            && (g.player1 == Some(player) && g.status != Active ==> d.effect == Remove)
            && (g.player1 != Some(player) && g.player2 == Some(player) && g.status == Active ==>
                  d.effect == Put(g.(status := Completed, winner := g.player1)))
            && (g.player1 != Some(player) && g.player2 == Some(player) && g.status != Active ==>
                  d.effect.Put? && d.effect.game.player2 == None && d.effect.game.board2 == ""
                  && d.effect.game.(player2 := g.player2, board2 := g.board2) == g)
            && (g.player1 != Some(player) && g.player2 != Some(player) ==>
                  d == Reject(PlayerNotFound))
  {
  }

  // ---------------------------------------------------------------------
  // kickPlayer
  // ---------------------------------------------------------------------

  /** `kickPlayer` refuses the host before it looks at the status, refuses
      any kick in an active game, and otherwise resets a kicked guest's game
      to an empty waiting room. It never looks at who asks. */
  lemma KickChecks(g: Game, player: string)
    ensures var d := KickRules(Some(g), player);
            && (g.player1 == Some(player) ==> d.reply == Failure(CannotKickHost))
            && (g.player1 != Some(player) && g.status == Active ==> d.reply == Failure(CannotKickActivePlayer))
            && (g.player1 != Some(player) && g.status != Active && g.player2 == Some(player) ==>
                  d.reply == Success(Kicked)
                  && d.effect == Put(Game(g.player1, None, "", "", Waiting, g.password, None, None)))
            && (g.player1 != Some(player) && g.status != Active && g.player2 != Some(player) ==>
                  d.reply == Failure(PlayerNotFound))
  {
  }

  /** A completed game can be reset to a waiting room by a kick. */
  lemma KickReopensCompletedGame(g: Game, guest: string)
    requires g.status == Completed && g.player2 == Some(guest) && g.player1 != g.player2
    ensures var d := KickRules(Some(g), guest);
            d.effect.Put? && d.effect.game.status == Waiting && d.effect.game.winner == None
  {
  }

  // ---------------------------------------------------------------------
  // updateGameBoard
  // ---------------------------------------------------------------------

  /** A move by the player whose turn it is stores that player's own board
      and hands the turn to the other slot; a move by anyone else is refused
      with `NotYourTurn`; `NotAPlayer` arises only when the turn names neither
      slot. The status is never consulted. */
  lemma UpdateMoves(g: Game, player: string, board: string)
    ensures var d := UpdateRules(Some(g), player, board);
            && (g.turn != Some(player) ==> d.reply == Failure(NotYourTurn))
            && (g.turn == Some(player) && g.player1 == Some(player) ==>
                  d.effect == Put(g.(board1 := board, turn := g.player2)))
            && (g.turn == Some(player) && g.player1 != Some(player) && g.player2 == Some(player) ==>
                  d.effect == Put(g.(board2 := board, turn := g.player1)))
            && (d.reply == Failure(NotAPlayer) <==>
                  g.turn == Some(player) && g.turn != g.player1 && g.turn != g.player2)
            && (d.reply.Success? ==> d.reply.data == BoardSaved(board))
  {
  }

  /** In a consistent game with a guest, turns alternate: right after a
      successful move the same player is refused with `NotYourTurn` and the
      other player may move. */
  lemma TurnsAlternate(g: Game, player: string, board: string, board': string)
    requires Consistent(g) && g.player2.Some?
    requires UpdateRules(Some(g), player, board).reply.Success?
    ensures var g' := UpdateRules(Some(g), player, board).effect.game;
            && UpdateRules(Some(g'), player, board').reply == Failure(NotYourTurn)
            && g'.turn.Some?
            && UpdateRules(Some(g'), g'.turn.value, board').reply.Success?
            && Consistent(g')
  {
  }

  // ---------------------------------------------------------------------
  // The record invariant
  // ---------------------------------------------------------------------

  /** The record `createGame` writes is consistent. */
  lemma CreateKeepsConsistent(player1: string, password: Option<string>)
    requires player1 != ""
    ensures Consistent(NewGame(player1, password))
  {
  }

  /** Whatever the five mutating guard chains write over a consistent record
      is consistent again, provided the request named a non-empty player (the
      handlers' missing-field check guarantees it). */
  lemma RulesKeepConsistent(g: Game, player: string, password: Option<string>, board: string)
    requires Consistent(g) && player != ""
    ensures var e := JoinRules(Some(g), player, password).effect; e.Put? ==> Consistent(e.game)
    ensures var e := StartRules(Some(g), player).effect; e.Put? ==> Consistent(e.game)
    ensures var e := LeaveRules(Some(g), player).effect; e.Put? ==> Consistent(e.game)
    ensures var e := KickRules(Some(g), player).effect; e.Put? ==> Consistent(e.game)
    ensures var e := UpdateRules(Some(g), player, board).effect; e.Put? ==> Consistent(e.game)
  {
  }

  /** A game becomes active only through `startGame` by its host. */
  lemma ActivationOnlyByStart(g: Game, player: string, password: Option<string>, board: string)
    requires g.status != Active
    ensures var e := JoinRules(Some(g), player, password).effect; e.Put? ==> e.game.status != Active
    ensures var e := LeaveRules(Some(g), player).effect; e.Put? ==> e.game.status != Active
    ensures var e := KickRules(Some(g), player).effect; e.Put? ==> e.game.status != Active
    ensures var e := UpdateRules(Some(g), player, board).effect; e.Put? ==> e.game.status != Active
  {
  }

  /** An active game can only stay active or become completed, and is never
      deleted. */
  lemma ActiveOnlyCompletes(g: Game, player: string, password: Option<string>, board: string)
    requires g.status == Active
    ensures JoinRules(Some(g), player, password).effect == Keep
    ensures StartRules(Some(g), player).effect == Keep
    ensures KickRules(Some(g), player).effect == Keep
    ensures var e := LeaveRules(Some(g), player).effect;
            e == Keep || (e.Put? && e.game.status == Completed)
    ensures var e := UpdateRules(Some(g), player, board).effect;
            e == Keep || (e.Put? && e.game.status == Active)
  {
  }
}
