/** The in-memory bookkeeping of `GameSocketHandler` in `config/socket.js`:
    which players are present in which game, and which players have a
    pending auto-leave timer after a disconnect.

    A `setTimeout` handle is a `TimerId`. `disconnectionTimers` maps a player
    to the handle stored for it; `pending` holds every callback that has been
    scheduled and neither cleared (`clearTimeout`) nor run yet. Keeping the two
    apart is what lets the model see a timer whose handle was overwritten: it
    is no longer in `disconnectionTimers`, so nothing can clear it, but it is
    still pending and will run. */
module Presence {
  import opened Nullable

  type TimerId = nat

  /** The deferred auto-leave a disconnect schedules for one player. */
  datatype Callback = AutoLeave(playerId: string, gameId: string)

  datatype Tables = Tables(
    activeGames: map<string, set<string>>,
    disconnectionTimers: map<string, TimerId>,
    pending: map<TimerId, Callback>,
    nextTimer: TimerId)

  /** The state right after the constructor. */
  const Initial: Tables := Tables(map[], map[], map[], 0)

  /** Two maps agree on every key outside `keys`. */
  ghost predicate AgreeOutside<K(!new), V>(a: map<K, V>, b: map<K, V>, keys: set<K>) {
    forall k :: k !in keys ==> (k in a <==> k in b) && (k in a ==> a[k] == b[k])
  }

  /** No game is stored with an empty set of players. */
  ghost predicate NoEmptyGame(active: map<string, set<string>>) {
    forall g :: g in active ==> active[g] != {}
  }

  /** The bookkeeping invariant: no empty player set is stored, every stored
      handle belongs to a pending callback for that same player, and handles
      still to be issued are fresh. */
  ghost predicate Valid(t: Tables) {
    && NoEmptyGame(t.activeGames)
    && (forall p :: p in t.disconnectionTimers ==>
          t.disconnectionTimers[p] in t.pending && t.pending[t.disconnectionTimers[p]].playerId == p)
    && (forall h :: h in t.pending ==> h < t.nextTimer)
  }

  /** The players present in a game; none for an unknown game. */
  function Members(t: Tables, g: string): (ps: set<string>)
    ensures g !in t.activeGames ==> ps == {}
  {
    if g in t.activeGames then t.activeGames[g] else {}
  }

  /** `removePlayerFromGame`: drop the player from the game's set, and drop
      the set when it becomes empty; an unknown game is left alone. */
  function RemovePlayerFromGame(active: map<string, set<string>>, p: string, g: string): (r: map<string, set<string>>)
    ensures AgreeOutside(active, r, {g})
    ensures g !in active ==> r == active
    ensures g in active ==> (g in r <==> active[g] - {p} != {}) && (g in r ==> r[g] == active[g] - {p})
    ensures g in r ==> p !in r[g] && r[g] != {}
    ensures NoEmptyGame(active) ==> NoEmptyGame(r)
  {
    if g in active then
      var rest := active[g] - {p};
      if rest == {} then active - {g} else active[g := rest]
    else active
  }

  /** `clearTimeout` on the player's stored handle, then delete the entry. */
  function ClearTimer(t: Tables, p: string): (r: Tables)
    ensures p !in r.disconnectionTimers
    ensures r.disconnectionTimers == t.disconnectionTimers - {p}
    ensures r.activeGames == t.activeGames && r.nextTimer == t.nextTimer
    ensures p in t.disconnectionTimers ==> r.pending == t.pending - {t.disconnectionTimers[p]}
    ensures p !in t.disconnectionTimers ==> r == t
  {
    if p in t.disconnectionTimers then
      t.(pending := t.pending - {t.disconnectionTimers[p]}, disconnectionTimers := t.disconnectionTimers - {p})
    else t
  }

  /** The handles stored for the given players. */
  function HandlesOf(timers: map<string, TimerId>, ps: set<string>): (hs: set<TimerId>)
    ensures forall p :: p in ps && p in timers ==> timers[p] in hs
    ensures forall h :: h in hs ==> exists p :: p in ps && p in timers && timers[p] == h
  {
    set p | p in ps && p in timers :: timers[p]
  }

  /** Clear the timers of every player in `ps`. */
  function ClearTimers(t: Tables, ps: set<string>): (r: Tables)
    ensures r.activeGames == t.activeGames && r.nextTimer == t.nextTimer
    ensures r.disconnectionTimers == t.disconnectionTimers - ps
    ensures r.pending == t.pending - HandlesOf(t.disconnectionTimers, ps)
  {
    t.(disconnectionTimers := t.disconnectionTimers - ps,
       pending := t.pending - HandlesOf(t.disconnectionTimers, ps))
  }

  /** Clearing the timers of a set of players one player at a time, as
      `handleStartGame` does, ends where clearing them all at once does. */
  lemma ClearTimersOneMore(t: Tables, done: set<string>, p: string)
    requires p !in done
    ensures ClearTimers(t, done + {p}) == ClearTimer(ClearTimers(t, done), p)
  {
  }

  // ---------------------------------------------------------------------
  // The handlers, as transitions of the tables
  // ---------------------------------------------------------------------

  /** `handleJoinGame`: clear the player's timer, then add the player to the
      game's set, creating the set if it is absent. */
  function JoinGame(t: Tables, p: string, g: string): (r: Tables)
    ensures g in r.activeGames && r.activeGames[g] == Members(t, g) + {p}
    ensures AgreeOutside(t.activeGames, r.activeGames, {g})
    ensures p !in r.disconnectionTimers
    ensures AgreeOutside(t.disconnectionTimers, r.disconnectionTimers, {p})
    ensures r.pending == (if p in t.disconnectionTimers then t.pending - {t.disconnectionTimers[p]} else t.pending)
    ensures r.nextTimer == t.nextTimer
  {
    var c := ClearTimer(t, p);
    c.(activeGames := c.activeGames[g := Members(c, g) + {p}])
  }

  /** `handleLeaveGame`: clear the player's timer and remove the player from
      the game. */
  function LeaveGame(t: Tables, p: string, g: string): (r: Tables)
    ensures p !in r.disconnectionTimers
    ensures AgreeOutside(t.disconnectionTimers, r.disconnectionTimers, {p})
    ensures p !in Members(r, g)
    ensures r.activeGames == RemovePlayerFromGame(t.activeGames, p, g)
    ensures r.pending == (if p in t.disconnectionTimers then t.pending - {t.disconnectionTimers[p]} else t.pending)
    ensures r.nextTimer == t.nextTimer
  {
    var c := ClearTimer(t, p);
    c.(activeGames := RemovePlayerFromGame(c.activeGames, p, g))
  }

  /** `handleStartGame`: clear the timer of every player currently in the
      game; presence is unchanged and so are other players' timers. */
  function StartGame(t: Tables, g: string): (r: Tables)
    ensures r.activeGames == t.activeGames
    ensures forall p :: p in Members(t, g) ==> p !in r.disconnectionTimers
    ensures AgreeOutside(t.disconnectionTimers, r.disconnectionTimers, Members(t, g))
    ensures r.pending == t.pending - HandlesOf(t.disconnectionTimers, Members(t, g))
    ensures r.nextTimer == t.nextTimer
  {
    ClearTimers(t, Members(t, g))
  }

  /** `handleKickPlayer`: remove the kicked player from the game; timers are
      not touched. */
  function KickPlayer(t: Tables, p: string, g: string): (r: Tables)
    ensures r.disconnectionTimers == t.disconnectionTimers && r.pending == t.pending
    ensures r.nextTimer == t.nextTimer
    ensures r.activeGames == RemovePlayerFromGame(t.activeGames, p, g)
  {
    t.(activeGames := RemovePlayerFromGame(t.activeGames, p, g))
  }

  /** `handleReconnectPlayer` acts only for a player present in the game; it
      changes no table and in particular cancels no pending timer. */
  function ReconnectPlayer(t: Tables, p: string, g: string): (acts: bool)
    ensures acts <==> g in t.activeGames && p in t.activeGames[g]
  {
    p in Members(t, g)
  }

  /** `handleDisconnect`: when the socket carries a game and a player, issue
      a fresh handle for an auto-leave and store it for the player. A handle
      already stored for the player is overwritten, not cleared: its callback
      stays pending. */
  function Disconnect(t: Tables, socketGame: Option<string>, socketPlayer: Option<string>): (r: Tables)
    ensures !(Truthy(socketGame) && Truthy(socketPlayer)) ==> r == t
    ensures Truthy(socketGame) && Truthy(socketPlayer) ==>
              && r.activeGames == t.activeGames
              && r.disconnectionTimers == t.disconnectionTimers[socketPlayer.value := t.nextTimer]
              && r.pending == t.pending[t.nextTimer := AutoLeave(socketPlayer.value, socketGame.value)]
              && r.nextTimer == t.nextTimer + 1
  {
    if Truthy(socketGame) && Truthy(socketPlayer) then
      var p, g := socketPlayer.value, socketGame.value;
      Tables(t.activeGames, t.disconnectionTimers[p := t.nextTimer],
             t.pending[t.nextTimer := AutoLeave(p, g)], t.nextTimer + 1)
    else t
  }

  /** The auto-leave callback of handle `h` runs: if the leave request
      produced a result, the player is removed from the game; in every case
      the player's timer entry is deleted (whichever handle it held). */
  function FireTimer(t: Tables, h: TimerId, leaveSucceeded: bool): (r: Tables)
    requires h in t.pending
    ensures h !in r.pending && r.pending == t.pending - {h}
    ensures r.disconnectionTimers == t.disconnectionTimers - {t.pending[h].playerId}
    ensures leaveSucceeded ==>
              r.activeGames == RemovePlayerFromGame(t.activeGames, t.pending[h].playerId, t.pending[h].gameId)
    ensures !leaveSucceeded ==> r.activeGames == t.activeGames
    ensures r.nextTimer == t.nextTimer
  {
    var cb := t.pending[h];
    var active := if leaveSucceeded then RemovePlayerFromGame(t.activeGames, cb.playerId, cb.gameId)
                  else t.activeGames;
    Tables(active, t.disconnectionTimers - {cb.playerId}, t.pending - {h}, t.nextTimer)
  }

  // ---------------------------------------------------------------------
  // Event traces
  // ---------------------------------------------------------------------

  /** One socket event, or one timer expiry. */
  datatype Event =
    | Join(playerId: string, gameId: string)
    | Leave(playerId: string, gameId: string)
    | Start(gameId: string)
    | Kick(playerId: string, gameId: string)
    | Reconnect(playerId: string, gameId: string)
    | Drop(socketGame: Option<string>, socketPlayer: Option<string>)
    | Expire(handle: TimerId, leaveSucceeded: bool)

  /** The tables after one event, as `handleConnection` dispatches socket
      events to the handlers. A handle that is no longer pending cannot
      expire, so such an `Expire` changes nothing. Only a disconnect
      schedules a callback, and a reconnect changes nothing. */
  function Step(t: Tables, e: Event): (r: Tables)
    ensures !e.Drop? ==> r.nextTimer == t.nextTimer && r.pending.Keys <= t.pending.Keys
    ensures e.Reconnect? ==> r == t
    ensures e.Expire? && e.handle !in t.pending ==> r == t
  {
    match e
    case Join(p, g) => JoinGame(t, p, g)
    case Leave(p, g) => LeaveGame(t, p, g)
    case Start(g) => StartGame(t, g)
    case Kick(p, g) => KickPlayer(t, p, g)
    case Reconnect(_, _) => t
    case Drop(sg, sp) => Disconnect(t, sg, sp)
    case Expire(h, ok) => if h in t.pending then FireTimer(t, h, ok) else t
  }

  function Run(t: Tables, es: seq<Event>): Tables
    decreases |es|
  {
    if es == [] then t else Run(Step(t, es[0]), es[1..])
  }

  /** Every event keeps the bookkeeping invariant. */
  lemma StepKeepsValid(t: Tables, e: Event)
    requires Valid(t)
    ensures Valid(Step(t, e))
  {
  }

  /** From the initial state, any sequence of events keeps the invariant:
      in particular no game is ever stored with an empty set of players. */
  lemma {:induction false} RunKeepsValid(t: Tables, es: seq<Event>)
    requires Valid(t)
    ensures Valid(Run(t, es))
    decreases |es|
  {
    if es != [] {
      StepKeepsValid(t, es[0]);
      RunKeepsValid(Step(t, es[0]), es[1..]);
    }
  }

  // ---------------------------------------------------------------------
  // A timer whose handle is overwritten outlives the player's return
  // ---------------------------------------------------------------------

  /** At most one pending auto-leave per player, and it is the one stored in
      `disconnectionTimers`, so clearing the stored handle cancels every
      pending forfeit of that player. */
  ghost predicate OneTimerPerPlayer(t: Tables) {
    forall h :: h in t.pending ==>
      t.pending[h].playerId in t.disconnectionTimers && t.disconnectionTimers[t.pending[h].playerId] == h
  }

  /** As written: a player connected through two sockets disconnects from
      both, then joins again. The join clears only the second handle; the
      first callback is still pending and, when it runs and the leave
      request returns a result, removes the player who has just come back. */
  lemma OrphanedTimerOutlivesRejoin()
    ensures var t1 := JoinGame(Initial, "bob", "R1");
            var t2 := Disconnect(Disconnect(t1, Some("R1"), Some("bob")), Some("R1"), Some("bob"));
            var t3 := JoinGame(t2, "bob", "R1");
            && Valid(t2) && !OneTimerPerPlayer(t2)
            && "bob" in Members(t3, "R1") && "bob" !in t3.disconnectionTimers
            && 0 in t3.pending && t3.pending[0] == AutoLeave("bob", "R1")
            && "R1" !in FireTimer(t3, 0, true).activeGames
  {
    var t1 := JoinGame(Initial, "bob", "R1");
    var t2 := Disconnect(Disconnect(t1, Some("R1"), Some("bob")), Some("R1"), Some("bob"));
    assert t2.pending[0].playerId == "bob" && t2.disconnectionTimers["bob"] == 1;
    var t3 := JoinGame(t2, "bob", "R1");
    assert t3.pending == map[0 := AutoLeave("bob", "R1")];
  }

  /** As written, whatever the leave request returns: after the rejoin above
      the player disconnects once more (handle 2). The orphaned callback of
      handle 0 then runs and deletes the player's entry, which now holds
      handle 2. When the player joins again, there is no entry to clear, so
      the auto-leave of handle 2 stays pending although the player is back. */
  lemma OrphanedTimerClearsNewerEntry(leaveSucceeded: bool)
    ensures var t3 := JoinGame(Disconnect(Disconnect(JoinGame(Initial, "bob", "R1"), Some("R1"), Some("bob")),
                                          Some("R1"), Some("bob")), "bob", "R1");
            var t4 := Disconnect(t3, Some("R1"), Some("bob"));
            && 0 in t4.pending && "bob" in t4.disconnectionTimers && t4.disconnectionTimers["bob"] == 2
            && var t5 := FireTimer(t4, 0, leaveSucceeded);
               var t6 := JoinGame(t5, "bob", "R1");
               && "bob" !in t5.disconnectionTimers
               && "bob" in Members(t6, "R1") && "bob" !in t6.disconnectionTimers
               && 2 in t6.pending && t6.pending[2] == AutoLeave("bob", "R1")
               && !OneTimerPerPlayer(t6)
  {
  }

  /** Corrected disconnect: clear the player's stored timer before storing
      the new one (cancel before create). */
  function DisconnectReplacing(t: Tables, socketGame: Option<string>, socketPlayer: Option<string>): (r: Tables)
    ensures !(Truthy(socketGame) && Truthy(socketPlayer)) ==> r == t
    ensures Truthy(socketGame) && Truthy(socketPlayer) ==>
              && r.disconnectionTimers == t.disconnectionTimers[socketPlayer.value := t.nextTimer]
              && t.nextTimer in r.pending && r.pending[t.nextTimer] == AutoLeave(socketPlayer.value, socketGame.value)
    ensures Truthy(socketGame) && Truthy(socketPlayer) ==>
              r.pending == ClearTimer(t, socketPlayer.value).pending[t.nextTimer := AutoLeave(socketPlayer.value, socketGame.value)]
  {
    if Truthy(socketGame) && Truthy(socketPlayer) then
      Disconnect(ClearTimer(t, socketPlayer.value), socketGame, socketPlayer)
    else t
  }

  /** The event semantics with the corrected disconnect. */
  function StepReplacing(t: Tables, e: Event): Tables {
    match e
    case Drop(sg, sp) => DisconnectReplacing(t, sg, sp)
    case _ => Step(t, e)
  }

  function RunReplacing(t: Tables, es: seq<Event>): Tables
    decreases |es|
  {
    if es == [] then t else RunReplacing(StepReplacing(t, es[0]), es[1..])
  }

  /** With the corrected disconnect every event keeps both invariants. */
  lemma StepReplacingKeepsOneTimer(t: Tables, e: Event)
    requires Valid(t) && OneTimerPerPlayer(t)
    ensures Valid(StepReplacing(t, e)) && OneTimerPerPlayer(StepReplacing(t, e))
  {
  }

  lemma {:induction false} RunReplacingKeepsOneTimer(t: Tables, es: seq<Event>)
    requires Valid(t) && OneTimerPerPlayer(t)
    ensures Valid(RunReplacing(t, es)) && OneTimerPerPlayer(RunReplacing(t, es))
    decreases |es|
  {
    if es != [] {
      StepReplacingKeepsOneTimer(t, es[0]);
      RunReplacingKeepsOneTimer(StepReplacing(t, es[0]), es[1..]);
    }
  }

  /** The intended guarantee, which holds with the corrected disconnect: once
      a player joins again, no auto-leave of that player is pending, whatever
      happened before. */
  lemma {:induction false} RejoinCancelsEveryForfeit(es: seq<Event>, p: string, g: string)
    ensures var t := JoinGame(RunReplacing(Initial, es), p, g);
            forall h :: h in t.pending ==> t.pending[h].playerId != p
  {
    RunReplacingKeepsOneTimer(Initial, es);
    var s := RunReplacing(Initial, es);
    var t := JoinGame(s, p, g);
    forall h | h in t.pending
      ensures t.pending[h].playerId != p
    {
      assert h in s.pending && t.pending[h] == s.pending[h];
      assert s.disconnectionTimers[s.pending[h].playerId] == h;
    }
  }
}
