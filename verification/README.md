# Battleship session server: a Dafny model

This project models the two stateful parts of a small two-player Battleship
server written in JavaScript.

**The game-session store** is modelled in `battleship.dfy` and
`game_store.dfy`. The HTTP handlers of `controllers/battleship.js` each read
one game record keyed by room identifier, run a fixed chain of checks, and
then write the record back, delete it, or leave it alone. A record holds the
fields of `models/Battleship.js`: `player1` (host), `player2` (guest),
`board1`, `board2`, `status` (`waiting`/`active`/`completed`), `password`,
`turn` and `winner`. The model is built in layers:
- Module `Battleship` gives each handler's guard chain as a pure function
  (`JoinRules`, `StartRules`, …). Each function returns the reply and the write.
- Module `GameStore` wraps the chains:
  - `Step` adds the missing-field check and the lookup, then applies the write
    to a `map<string, Game>`.
  - Class `GameStore.Store` performs the same steps in place. Each of its
    handler methods is proved equal to `Step`.
- Module `Battleship` also states the per-record invariant `Consistent`:
  - the host is set;
  - a guest differs from the host;
  - once a guest is present, the turn is the host's or the guest's;
  - an active game has a guest;
  - a winner is recorded exactly when the game is completed.

  Every handler preserves the invariant, so it holds in every reachable store
  (`GameStore.RunKeepsConsistent`).

**Presence and disconnect timers** are modelled in `presence.dfy` and
`socket_handler.dfy`. They follow class `GameSocketHandler` of
`config/socket.js`, which keeps two tables:
- `activeGames`: a game id mapped to its set of player ids;
- `disconnectionTimers`: a player id mapped to a timer handle.

The model represents a timer handle as a number. Scheduled callbacks that have not been cleared or
run yet are kept in a third table, `pending`. Expiry of a handle is an
explicit `FireTimer(handle, leaveSucceeded)`. Its `leaveSucceeded` argument
stands for whether the HTTP leave request returned a result. Module
`Presence` gives every handler as a pure transition of these tables and
proves the following:
- the invariant `Valid` holds, so no empty player set is ever stored;
- a join clears the player's timer: the stored handle's callback is
  cancelled and the entry deleted;
- kicking a player leaves the timers alone;
- reconnecting changes nothing;
- and so on for the other handlers.

Class `SocketHandler.GameSocketHandler` performs each handler in place. Each
method is proved equal to its transition. `HandleStartGame` is a loop that
clears one player's timer at a time.

Three behaviours of the code worth stating:
- `joinGame` leaves the status `waiting`. Only `startGame` makes a game
  `active`.
- `updateGameBoard` stores the mover's own board and hands the turn to the
  other slot. It does not consult the status.
- `handleReconnectPlayer` does not cancel a pending timer. A `joinGame`,
  `leaveGame` or `startGame` event clears it; `reconnect_player` does not.

Also as written:
- `kickPlayer` never looks at who asks, and it can reset a completed game to
  `waiting`.
- The room listing carries each room's password, because the source selects
  that field.

Error names are the source's `Error.name` strings. For example, `joinGame`
answers `GameNotFound` both for a missing room and for a room that is not
waiting.

## Model

| member | source | states |
|---|---|---|
| Nullable.OrNull | controllers/battleship.js:37 | the password-or-null idiom: a falsy value becomes null, a truthy one is kept |
| Battleship.NewGame | controllers/battleship.js:30-40 | the record a new room gets is waiting and hosted by the creator |
| Battleship.CreateRules | controllers/battleship.js:18-40 | createGame's chain fails exactly when it writes nothing |
| Battleship.JoinRules | controllers/battleship.js:90-183 | joinGame's chain fails exactly when it writes nothing |
| Battleship.StartRules | controllers/battleship.js:238-285 | startGame's chain fails exactly when it writes nothing |
| Battleship.LeaveRules | controllers/battleship.js:328-416 | leaveGame's chain fails exactly when it writes nothing |
| Battleship.KickRules | controllers/battleship.js:445-511 | kickPlayer's chain fails exactly when it writes nothing |
| Battleship.UpdateRules | controllers/battleship.js:633-705 | updateGameBoard's chain fails exactly when it writes nothing |
| Battleship.JoinReportsFirstFailure | controllers/battleship.js:90-169 | joinGame succeeds iff no check fails, and otherwise reports the first failing check in the order not found, not waiting, no host, self-join, full, password required, wrong password |
| Battleship.JoinWrites | controllers/battleship.js:171-183 | a successful join sets the guest, gives the turn to the host, clears both boards, keeps status waiting, keeps host, password and winner, and leaves host and guest distinct |
| Battleship.SecondJoinRefused | controllers/battleship.js:125-145 | after a successful join every further join fails: the host with YouCannotJoinYourOwnGame, anyone else with GameAlreadyFull |
| Battleship.GuestSlotReopens | controllers/battleship.js:136-145 | after a guest leaves a waiting game or is kicked, a new player with the right password can join |
| Battleship.StartActivatesOnlyFromHost | controllers/battleship.js:251-285 | start succeeds iff the game is waiting, the requester is the host and a guest is set; it changes only the status, to active |
| Battleship.LeaveOutcomes | controllers/battleship.js:341-416 | host leaving an active game completes it with the guest as winner; otherwise the host deletes it; the guest leaving an active game completes it with the host as winner; otherwise only the guest slot and guest board are cleared; anyone else gets PlayerNotFound and nothing changes |
| Battleship.KickChecks | controllers/battleship.js:458-511 | the host check comes before the active check; kicking the guest resets guest, boards, turn and winner and sets waiting; any other target gets PlayerNotFound |
| Battleship.KickReopensCompletedGame | controllers/battleship.js:469-491 | a kick turns a completed game back into a waiting game with no winner |
| Battleship.UpdateMoves | controllers/battleship.js:646-705 | a player other than the turn holder gets NotYourTurn; the host's move stores board1 and passes the turn to the guest slot; the guest's move stores board2 and passes it to the host; NotAPlayer happens exactly when the turn names neither slot |
| Battleship.TurnsAlternate | controllers/battleship.js:656-686 | in a consistent game with a guest, the same player cannot move twice in a row and the other player can move next |
| Battleship.CreateKeepsConsistent | controllers/battleship.js:30-40 | a new room's record satisfies the record invariant |
| Battleship.RulesKeepConsistent | controllers/battleship.js:171-705 | every record written by join, start, leave, kick or a move keeps the record invariant |
| Battleship.ActivationOnlyByStart | controllers/battleship.js:176 | join, leave, kick and moves never make an inactive game active |
| Battleship.ActiveOnlyCompletes | controllers/battleship.js:341-386 | in an active game join, start and kick write nothing, a leave can only complete the game, and a move keeps it active |
| GameStore.HasRequiredFields | controllers/battleship.js:617-632 | a request passes the missing-field check iff its room identifier and acting player are truthy and, for a move, its board is truthy |
| GameStore.Find | controllers/battleship.js:90 | the lookup finds a record iff the room identifier is stored, and returns that record |
| GameStore.Apply | controllers/battleship.js:171-183 | a write touches only its own room identifier: keep, overwrite or delete |
| GameStore.Step | controllers/battleship.js:79-88 | the reply is MissingFields exactly when a required field is missing; a refused request leaves the store unchanged, and no record other than the request's room can change or disappear |
| GameStore.EmptyBoardRefused | controllers/battleship.js:621-632 | a move with an absent or empty board is answered MissingFields and changes nothing |
| GameStore.CreateAddsOneRecord | controllers/battleship.js:18-40 | createGame fails with GameExists and no change for a taken room; otherwise it adds exactly one record: waiting, no guest, empty boards, no turn or winner, and the normalised password |
| GameStore.StepKeepsConsistent | controllers/battleship.js:171-705 | any handler call keeps every stored record consistent |
| GameStore.RunKeepsConsistent | controllers/battleship.js:3-716 | any sequence of handler calls keeps every stored record consistent |
| GameStore.ReachableActiveGamesHaveTwoPlayers | controllers/battleship.js:273-284 | in every store reachable from an empty one, an active game has two distinct players and the turn is one of them, and a winner exists exactly in completed games |
| GameStore.Listing | controllers/battleship.js:527-529 | the listing holds exactly one summary per stored record: room, players, status and password |
| GameStore.ListingSize | controllers/battleship.js:542-547 | the listing has as many entries as the store has records |
| GameStore.Store.constructor | models/Battleship.js:3-15 | the collection starts empty |
| GameStore.Store.Commit | controllers/battleship.js:171-183 | the store afterwards is the old store with the write applied |
| GameStore.Store.CreateGame | controllers/battleship.js:3-74 | the reply and the new store are those of Step for createGame |
| GameStore.Store.JoinGame | controllers/battleship.js:75-221 | the reply and the new store are those of Step for joinGame |
| GameStore.Store.StartGame | controllers/battleship.js:223-285 | the reply and the new store are those of Step for startGame |
| GameStore.Store.LeaveGame | controllers/battleship.js:313-428 | the reply and the new store are those of Step for leaveGame |
| GameStore.Store.KickPlayer | controllers/battleship.js:430-523 | the reply and the new store are those of Step for kickPlayer |
| GameStore.Store.UpdateGameBoard | controllers/battleship.js:617-716 | the reply and the new store are those of Step for updateGameBoard |
| GameStore.Store.GetGame | controllers/battleship.js:562-588 | MissingFields without a room identifier, NotFound for an unknown room, otherwise the stored record |
| GameStore.Store.GetAllRooms | controllers/battleship.js:525-548 | the items are the listing of the store, and the count equals the number of items and of records |
| Presence.Members | config/socket.js:86 | an unknown game has no players |
| Presence.RemovePlayerFromGame | config/socket.js:149-157 | the player leaves the game's set, the set is deleted when it empties, an unknown game is a no-op, other games are unchanged, and no empty set is ever stored |
| Presence.ClearTimer | config/socket.js:37-40 | the player's entry is deleted and its handle no longer pending; presence is unchanged |
| Presence.ClearTimers | config/socket.js:64-74 | the entries of the given players are deleted and their handles no longer pending |
| Presence.ClearTimersOneMore | config/socket.js:68-73 | clearing players one by one ends where clearing them all at once does |
| Presence.JoinGame | config/socket.js:32-46 | the player is in the game's set (created if absent), has no timer entry, the callback of its stored handle is no longer pending while every other callback stays, no handle is issued, and other games' sets and other players' entries are unchanged |
| Presence.LeaveGame | config/socket.js:53-60 | the player's timer entry is deleted, the callback of its stored handle is no longer pending while every other callback stays, no handle is issued, and the player is no longer in the game's set |
| Presence.StartGame | config/socket.js:64-74 | every present player's timer entry is deleted and exactly their stored callbacks stop being pending, other players' entries are untouched, no handle is issued, and presence is unchanged |
| Presence.KickPlayer | config/socket.js:79-80 | the kicked player is removed from the game, and timers are untouched |
| Presence.ReconnectPlayer | config/socket.js:84-93 | it acts exactly when the player is in the game's set |
| Presence.Disconnect | config/socket.js:113-137 | a new timer is registered only when the socket carries both a game and a player; it overwrites the player's entry and keeps every older pending callback |
| Presence.FireTimer | config/socket.js:116-134 | the handle is no longer pending and the player's entry is always deleted; the player leaves the game only when the leave request succeeded |
| Presence.Step | config/socket.js:17-30 | each socket event runs its handler; only a disconnect schedules a callback or issues a handle, a reconnect changes nothing, and a handle no longer pending cannot expire |
| Presence.StepKeepsValid | config/socket.js:32-157 | every event preserves the invariant: no empty sets, stored handles pending for their own player, handles fresh |
| Presence.RunKeepsValid | config/socket.js:149-157 | every event sequence preserves the invariant, so no empty set is ever stored |
| Presence.OrphanedTimerOutlivesRejoin | config/socket.js:113-136 | two disconnects and a rejoin leave the first auto-leave pending; when it fires and the leave request returns a result, it removes the player who rejoined |
| Presence.OrphanedTimerClearsNewerEntry | config/socket.js:116-136 | whatever the leave request returns, the orphaned callback deletes the entry of a newer handle, and after the next rejoin that newer auto-leave is still pending |
| Presence.DisconnectReplacing | config/socket.js:113-136 | the corrected disconnect removes the player's old callback from the pending ones, then stores and schedules the new one |
| Presence.StepReplacingKeepsOneTimer | config/socket.js:36-40 | with the corrected disconnect, every event keeps at most one pending auto-leave per player, the one that is stored |
| Presence.RunReplacingKeepsOneTimer | config/socket.js:36-40 | the same holds over every event sequence |
| Presence.RejoinCancelsEveryForfeit | config/socket.js:36-46 | with the corrected disconnect, after a rejoin no auto-leave of that player is pending |
| SocketHandler.Socket.constructor | config/socket.js:33-34 | a socket carries no player and no game until a join stores them |
| SocketHandler.GameSocketHandler.constructor | config/socket.js:5-9 | both tables start empty |
| SocketHandler.GameSocketHandler.CancelTimer | config/socket.js:37-40 | the tables afterwards are ClearTimer of the old ones |
| SocketHandler.GameSocketHandler.RemovePlayerFromGame | config/socket.js:149-157 | presence becomes RemovePlayerFromGame of the old presence, and timers are untouched |
| SocketHandler.GameSocketHandler.HandleJoinGame | config/socket.js:32-51 | the socket records the player and game, and the tables become JoinGame of the old ones |
| SocketHandler.GameSocketHandler.HandleLeaveGame | config/socket.js:53-62 | the tables become LeaveGame of the old ones |
| SocketHandler.GameSocketHandler.HandleStartGame | config/socket.js:64-77 | the loop over the game's players ends with the tables equal to StartGame of the old ones |
| SocketHandler.GameSocketHandler.HandleKickPlayer | config/socket.js:79-82 | the tables become KickPlayer of the old ones |
| SocketHandler.GameSocketHandler.HandleReconnectPlayer | config/socket.js:84-97 | it reports re-attachment exactly when the player is in the game's set, and changes nothing |
| SocketHandler.GameSocketHandler.HandleDisconnect | config/socket.js:113-138 | the tables become Disconnect of the old ones, using the socket's stored game and player |
| SocketHandler.GameSocketHandler.FireTimer | config/socket.js:116-134 | the tables become FireTimer of the old ones |

## Findings

| source | as written | input that shows it | evidently intended | confidence | as-written member | corrected member |
|---|---|---|---|---|---|---|
| config/socket.js:113-136 | `handleDisconnect` stores a new timer handle for the player over the old one without `clearTimeout`. The old callback stays scheduled, and nothing can clear it any more. | Player `bob` joins room `R1` from two sockets, and both disconnect. Then `bob` joins again from a third socket. The join clears only the second timer; the first (handle 0) stays pending. When it fires, it sends the leave request, and if that request returns a result it removes `bob` from `R1` although `bob` is connected. Whatever the request returns, the callback deletes `bob`'s timer entry (line 133). If `bob` had disconnected once more in between (handle 2), that entry held handle 2, so `bob`'s next join cannot clear it and the auto-leave of handle 2 stays pending. | One pending auto-leave per player, so that joining again cancels the forfeit. Lines 36-40 and 54-58 clear the player's timer for that purpose. | not executed; medium (needs one player on two sockets) | Presence.OrphanedTimerClearsNewerEntry | Presence.RejoinCancelsEveryForfeit |

The as-written `Presence.Disconnect` is what class
`SocketHandler.GameSocketHandler` performs, because that is the code's
behaviour. `Presence.DisconnectReplacing` and `Presence.StepReplacing` give
the corrected event semantics, and the one-timer-per-player guarantee is
proved for them.

## Left out

- HTTP shaping is not modelled: status codes, `Error.code` strings, messages
  and the JSON payloads. A reply is an error name or a small success value.
  One consequence: `joinGame` deletes the password before it computes
  `hasPassword`, so its reply always says `false`. The model does not show
  this.
- GameStore.Store.StartGame: after saving `active`, the source reads an
  undefined `gameResponse` (controllers/battleship.js:290). It therefore
  answers with a server error although the write happened. The model answers
  `Started` with the same write.
- Battleship.StartRules: the source writes `active` (controllers/battleship.js:284-285)
  and then fails with a server error at line 290, so as written its
  `startGame` does write on a failing reply. The model's chain answers
  `Started` for that write; see the previous line.
- GameStore.Store.GetGame: the source reads the same undefined `gameResponse`
  (controllers/battleship.js:593). It therefore fails for every existing room.
  The model returns the stored record.
- Store failures are not modelled: a create or update that returns nothing,
  and the catch-all server errors. The store is a total in-memory map.
- The database does not enforce unique room identifiers, and each record has
  an `_id`. Neither is modelled: the store holds one record per room
  identifier, and `getAllRooms`' sort by `_id` is not modelled (the listing
  is a set).
- The schema fields `key1` and `key2` are never written by the handlers and
  are not modelled.
- Request fields are modelled as absent or as strings. Other JSON values,
  and Mongoose's casting of them, are not modelled.
- Interleaving across `await` is not modelled: each HTTP handler is one
  atomic step, so the real read-then-write races are out of scope. The timer
  callback also awaits: it sends the leave request (config/socket.js:118) and
  only afterwards removes the player and deletes the entry (lines 124 and
  133). `FireTimer` treats the callback as one atomic step, so a join that
  happens while the request is in flight, and is then undone by the
  callback, is not modelled.
- Authentication (`middleware/auth.js`, `controllers/user.js`), routing, the
  database connection and the second presence map in `index.js` are not part
  of this model.
- Socket rooms and emitted events are not modelled: `playerJoined`,
  `playerLeft`, `gameStarted`, `playerKicked`, `game_state_sync`,
  `player_reconnected`, `reconnect_error`, `createComplete` and `movePlayed`.
  Nor are the handlers that only emit (`handleCreationComplete`,
  `handleMakeMove`).
- The HTTP leave request that the timer callback sends is not modelled. Its
  outcome is the `leaveSucceeded` argument of `FireTimer`. As written, the
  request posts to `/battleship/v1/leave-game` (config/socket.js:101), while
  the router is mounted at `/battleship` (index.js:99) with the route
  `/leave-game` (routes/battleship.js:23). With the default base URL the
  request therefore fails and `leaveSucceeded` is false; the base URL comes
  from the environment, so the model keeps both outcomes.
- The timer delay and the clock are not modelled. Expiry happens when the
  environment calls `FireTimer` on a pending handle.
- `handleReconnectPlayer`'s database lookup is not modelled, nor its error
  path: `Battleship` is not imported in `config/socket.js`.
