/** Class `GameSocketHandler` of `config/socket.js`: the socket event
    handlers that keep the presence and disconnect-timer tables, updated in
    place. Each method is proved to change the tables exactly as the matching
    transition of module `Presence` does; the properties of those transitions
    are proved there. */
module SocketHandler {
  import opened Nullable
  import opened Presence

  /** The two fields the handlers store on a connected socket. */
  class Socket {
    var playerId: Option<string>
    var gameId: Option<string>

    constructor ()
      ensures playerId == None && gameId == None
    {
      playerId := None;
      gameId := None;
    }
  }

  class GameSocketHandler {
    var activeGames: map<string, set<string>>
    var disconnectionTimers: map<string, TimerId>
    /** The scheduled auto-leave callbacks not yet cleared or run. */
    var pending: map<TimerId, Callback>
    /** The handle the next `setTimeout` returns. */
    var nextTimer: TimerId

    function State(): Tables
      reads this
    {
      Tables(activeGames, disconnectionTimers, pending, nextTimer)
    }

    constructor ()
      ensures State() == Initial
    {
      activeGames := map[];
      disconnectionTimers := map[];
      pending := map[];
      nextTimer := 0;
    }

    /** `clearTimeout` on the player's stored handle and delete the entry. */
    method CancelTimer(playerId: string)
      modifies this
      ensures State() == ClearTimer(old(State()), playerId)
    {
      if playerId in disconnectionTimers {
        pending := pending - {disconnectionTimers[playerId]};
        disconnectionTimers := disconnectionTimers - {playerId};
      }
    }

    method RemovePlayerFromGame(playerId: string, gameId: string)
      modifies this
      ensures activeGames == Presence.RemovePlayerFromGame(old(activeGames), playerId, gameId)
      ensures disconnectionTimers == old(disconnectionTimers) && pending == old(pending)
      ensures nextTimer == old(nextTimer)
    {
      if gameId in activeGames {
        var gamePlayers := activeGames[gameId] - {playerId};
        if gamePlayers == {} {
          activeGames := activeGames - {gameId};
        } else {
          activeGames := activeGames[gameId := gamePlayers];
        }
      }
    }

    method HandleJoinGame(socket: Socket, playerId: string, gameId: string)
      modifies this, socket
      ensures socket.playerId == Some(playerId) && socket.gameId == Some(gameId)
      ensures State() == JoinGame(old(State()), playerId, gameId)
    {
      socket.playerId := Some(playerId);
      socket.gameId := Some(gameId);
      CancelTimer(playerId);
      if gameId !in activeGames {
        activeGames := activeGames[gameId := {}];
      }
      activeGames := activeGames[gameId := activeGames[gameId] + {playerId}];
    }

    method HandleLeaveGame(playerId: string, gameId: string)
      modifies this
      ensures State() == LeaveGame(old(State()), playerId, gameId)
    {
      CancelTimer(playerId);
      RemovePlayerFromGame(playerId, gameId);
    }

    method HandleStartGame(gameId: string)
      modifies this
      ensures State() == StartGame(old(State()), gameId)
    {
      if gameId in activeGames {
        var gamePlayers := activeGames[gameId];
        var rest := gamePlayers;
        ghost var done: set<string> := {};
        while rest != {}
          invariant rest <= gamePlayers && done == gamePlayers - rest
          invariant State() == ClearTimers(old(State()), done)
          decreases rest
        {
          var playerId :| playerId in rest;
          ClearTimersOneMore(old(State()), done, playerId);
          CancelTimer(playerId);
          rest := rest - {playerId};
          done := done + {playerId};
        }
      }
    }

    method HandleKickPlayer(kickedPlayerId: string, gameId: string)
      modifies this
      ensures State() == KickPlayer(old(State()), kickedPlayerId, gameId)
    {
      RemovePlayerFromGame(kickedPlayerId, gameId);
    }

    /** Reports whether the player is re-attached to the game; it changes
      nothing, and a pending auto-leave of the player stays pending. */
    method HandleReconnectPlayer(playerId: string, gameId: string) returns (rejoined: bool)
      ensures rejoined <==> gameId in activeGames && playerId in activeGames[gameId]
    {
      rejoined := gameId in activeGames && playerId in activeGames[gameId];
    }

    method HandleDisconnect(socket: Socket)
      modifies this
      ensures State() == Disconnect(old(State()), socket.gameId, socket.playerId)
    {
      if Truthy(socket.gameId) && Truthy(socket.playerId) {
        var timer := nextTimer;
        nextTimer := nextTimer + 1;
        pending := pending[timer := AutoLeave(socket.playerId.value, socket.gameId.value)];
        disconnectionTimers := disconnectionTimers[socket.playerId.value := timer];
      }
    }

    /** The auto-leave callback of a pending handle runs; `leaveSucceeded`
        is whether the leave request returned a result. */
    method FireTimer(timer: TimerId, leaveSucceeded: bool)
      requires timer in pending
      modifies this
      ensures State() == Presence.FireTimer(old(State()), timer, leaveSucceeded)
    {
      var callback := pending[timer];
      pending := pending - {timer};
      if leaveSucceeded {
        RemovePlayerFromGame(callback.playerId, callback.gameId);
      }
      disconnectionTimers := disconnectionTimers - {callback.playerId};
    }
  }
}
