/** The session invariant, which requests keep it, and what each of them looks like from
    outside. */
module SessionTheory {
  import opened RulesTheory
  import opened Session
  import opened Protocol
  import opened Abstraction

  // ----- The invariant

  /** An instance without a name: connected and never named, or emptied by a takeover. */
  predicate Nameless(c: ClientRec) {
    || (c.toErase && c.state == Disconnected)
    || (c.stateLast == New && (c.state == New || Transient(c.state)) && c.room == 0)
  }

  predicate ClientOk(c: ClientRec) {
    && c.sock != 0
    && !Transient(c.stateLast)
    && (c.state == Disconnected <==> c.sock < 0)
    && (c.sock >= 0 ==> c.pings == LONG_PING)
    && (c.nick != "" ==> Logical(c) != New)
    && (c.nick == "" ==> Nameless(c))
    && (c.toErase ==> c.nick == "" || c.state == Disconnected)
  }

  ghost predicate Sound(w: World) {
    && NicksDistinct(w.clients)
    && RoomIdsOk(w)
    && ClientsOk(w.clients)
    && Consistent(View(w))
  }

  predicate ClientsOk(cs: seq<ClientRec>) {
    forall i :: 0 <= i < |cs| ==> ClientOk(cs[i])
  }

  lemma TwoClientsOk(cs: seq<ClientRec>, i: nat, j: nat, c: ClientRec, d: ClientRec)
    requires ClientsOk(cs) && i < |cs| && j < |cs| && ClientOk(c) && ClientOk(d)
    ensures ClientsOk(cs[i := c][j := d])
  {
  }

  ghost predicate GamesOk(rs: seq<RoomRec>) {
    forall r :: 0 <= r < |rs| ==> GameOk(rs[r].game)
  }

  /** The server is in order: nicks, ids and clients are, every stored game is in play and in
      order, and clients and rooms agree on who plays where and in which role. */
  ghost predicate WorldOk(w: World) {
    Sound(w) && GamesOk(w.rooms)
  }

  // ----- Players and their rooms

  /** A client in a room: the room is found, and its opponent is another client. */
  lemma AtTable(w: World, i: nat)
    requires Sound(w) && i < |w.clients| && w.clients[i].nick != "" && w.clients[i].room != 0
    ensures var c := w.clients[i];
      && Seated(w, c) && HasNick(w, OpponentOf(w, c)) && Playing(Logical(c))
      && var g := RoomGame(w, c.room); var j := FindNick(w.clients, OpponentOf(w, c));
      && j != i && w.clients[j].nick == OpponentOf(w, c) != "" && w.clients[j].room == c.room
      && (if Logical(c) == PlayingOnTurn then g.onTurn == c.nick && g.onStand == w.clients[j].nick && Logical(w.clients[j]) == PlayingOnStand
          else g.onStand == c.nick && g.onTurn == w.clients[j].nick && Logical(w.clients[j]) == PlayingOnTurn)
  {
    var c := w.clients[i];
    FindOwn(w.clients, i);
    var a := View(w);
    assert PlayerFits(a, c.nick);
    FindTable(w, c.room);
    assert TableFits(a, c.room);
    assert PlayerFits(a, a.tables[c.room].onTurn) && PlayerFits(a, a.tables[c.room].onStand);
    FindPlayer(w.clients, a.tables[c.room].onTurn);
    FindPlayer(w.clients, a.tables[c.room].onStand);
  }

  lemma ModeFits(w: World, i: nat)
    requires Sound(w) && i < |w.clients| && w.clients[i].nick != ""
    ensures Logical(w.clients[i]) in {Waiting, Ready, PlayingOnTurn, PlayingOnStand}
    ensures w.clients[i].room != 0 <==> Playing(Logical(w.clients[i]))
  {
    FindOwn(w.clients, i);
    assert PlayerFits(View(w), w.clients[i].nick);
  }

  lemma NoLobbyRoom(w: World)
    requires RoomIdsOk(w)
    ensures !HasRoom(w, 0)
  {
  }

  // ----- Changes nobody sees

  /** Changing a client without changing what it is doing. */
  lemma HiddenChange(w: World, i: nat, c: ClientRec)
    requires Sound(w) && i < |w.clients| && ClientOk(c)
    requires c.nick == w.clients[i].nick && (c.nick != "" ==> PlayerOf(c) == PlayerOf(w.clients[i]))
    ensures Sound(Put(w, i, c)) && View(Put(w, i, c)) == View(w)
  {
    SamePlayers(w.clients, i, c);
  }

  lemma AcceptHidden(w: World, ip: string, sock: int)
    requires Sound(w) && sock > 0
    ensures Sound(Accept(w, ip, sock)) && View(Accept(w, ip, sock)) == View(w)
  {
    AddUnnamed(w.clients, NewClient(ip, sock));
  }

  lemma CloseHidden(w: World, i: nat)
    requires Sound(w) && i < |w.clients|
    ensures CloseDefined(w, i) && Sound(Close(w, i)) && View(Close(w, i)) == View(w)
  {
    var c := w.clients[i];
    if c.sock >= 0 {
      if c.nick != "" && c.room != 0 { AtTable(w, i); }
      if c.nick != "" { ModeFits(w, i); }
      HiddenChange(w, i, WithState(c, Disconnected).(sock := BAD_SOCKET));
    }
  }

  lemma UnflagHidden(w: World, i: nat)
    requires Sound(w) && i < |w.clients|
    ensures Sound(Unflag(w, i)) && View(Unflag(w, i)) == View(w)
  {
    HiddenChange(w, i, w.clients[i].(toDisconnect := false));
  }

  lemma PingHidden(w: World, i: nat)
    requires Sound(w) && i < |w.clients|
    ensures PingDefined(w, i) && Sound(PingOne(w, i)) && View(PingOne(w, i)) == View(w)
  {
    var c := w.clients[i];
    assert ClientOk(c);
    if c.nick != "" && c.room != 0 { AtTable(w, i); }
    if c.nick != "" { ModeFits(w, i); }
    PingingOk(c);
    hide Pinging, Consistent, View, ClientOk, NicksDistinct, RoomIdsOk;
    HiddenChange(w, i, Pinging(c));
  }

  lemma PingingOk(c: ClientRec)
    requires ClientOk(c)
    ensures ClientOk(Pinging(c)) && Pinging(c).nick == c.nick && PlayerOf(Pinging(c)) == PlayerOf(c)
  {
  }

  // ----- Visible changes of one client

  lemma ChangeOne(w: World, i: nat, c: ClientRec)
    requires Sound(w) && i < |w.clients| && ClientOk(c)
    requires c.nick == w.clients[i].nick != ""
    ensures View(Put(w, i, c)) == View(w).(players := View(w).players[c.nick := PlayerOf(c)])
    ensures NicksDistinct(Put(w, i, c).clients)
    ensures Consistent(View(Put(w, i, c))) ==> Sound(Put(w, i, c))
  {
    OtherPlayer(w.clients, i, c);
  }

  /** Naming a client with a nick nobody has. */
  lemma NameClient(w: World, i: nat, c: ClientRec)
    requires Sound(w) && i < |w.clients| && w.clients[i].nick == "" && ClientOk(c)
    requires c.nick != "" && !HasNick(w, c.nick) && PlayerOf(c) == IN_LOBBY
    ensures Sound(Put(w, i, c)) && Enters(View(w), View(Put(w, i, c)), c.nick)
  {
    NamedPlayer(w.clients, i, c);
    EnterConsistent(View(w), View(Put(w, i, c)), c.nick);
  }

  // ----- Ending a game

  /** The two clients at a table, in either order. */
  predicate SeatedAt(w: World, id: int, i: nat, j: nat) {
    && i < |w.clients| && j < |w.clients| && i != j && HasRoom(w, id)
    && var t := TableOf(RoomGame(w, id));
       {w.clients[i].nick, w.clients[j].nick} == {t.onTurn, t.onStand}
  }

  function BackInLobby(c: ClientRec): ClientRec {
    WithLogical(c, Waiting).(room := 0)
  }

  /** Both clients in the lobby, and the room gone. */
  function SentHome(w: World, r: nat, i: nat, j: nat): World
    requires i < |w.clients| && j < |w.clients| && r < |w.rooms|
  {
    World(w.clients[i := BackInLobby(w.clients[i])][j := BackInLobby(w.clients[j])], Without(w.rooms, r), w.roomsTotal)
  }

  lemma DestroyRoomResult(w: World, id: int, i: nat, j: nat)
    requires i < |w.clients| && j < |w.clients| && i != j && id != 0 && HasRoom(w, id)
    ensures DestroyRoom(w, id, i, j) == SentHome(w, FindRoom(w.rooms, id), i, j)
  {
    assert DestroyRoom(w, id, i, j).clients == SentHome(w, FindRoom(w.rooms, id), i, j).clients;
  }

  lemma BackInLobbyOk(c: ClientRec)
    requires ClientOk(c) && c.nick != ""
    ensures ClientOk(BackInLobby(c)) && PlayerOf(BackInLobby(c)) == IN_LOBBY && BackInLobby(c).nick == c.nick
  {
  }

  lemma TwoOthers(cs: seq<ClientRec>, i: nat, j: nat, c: ClientRec, d: ClientRec)
    requires NicksDistinct(cs) && i < |cs| && j < |cs| && i != j
    requires c.nick == cs[i].nick != "" && d.nick == cs[j].nick != ""
    ensures NicksDistinct(cs[i := c][j := d])
    ensures Players(cs[i := c][j := d]) == Players(cs)[c.nick := PlayerOf(c)][d.nick := PlayerOf(d)]
  {
    OtherPlayer(cs, i, c);
    OtherPlayer(cs[i := c], j, d);
  }

  lemma SentHomeSound(w: World, r: nat, i: nat, j: nat)
    requires Sound(w) && r < |w.rooms| && SeatedAt(w, w.rooms[r].id, i, j)
    requires w.clients[i].nick != "" && w.clients[j].nick != ""
    ensures Sound(SentHome(w, r, i, j)) && Ends(View(w), View(SentHome(w, r, i, j)), w.rooms[r].id)
  {
    var w' := SentHome(w, r, i, j);
    var c, d := BackInLobby(w.clients[i]), BackInLobby(w.clients[j]);
    var a := View(w);
    RoomLookup(w, r);
    BackInLobbyOk(w.clients[i]);
    BackInLobbyOk(w.clients[j]);
    TwoOthers(w.clients, i, j, c, d);
    TwoClientsOk(w.clients, i, j, c, d);
    DropTable(w, r);
    var a' := Abstract(a.players[c.nick := IN_LOBBY][d.nick := IN_LOBBY], a.tables - {w.rooms[r].id});
    assert View(w') == a';
    EndsEitherWay(a, a', w.rooms[r].id, c.nick, d.nick);
    EndConsistent(a, a', w.rooms[r].id);
  }

  /** Destroying a room sends both of its players to the lobby and changes nothing else. */
  lemma DestroyEnds(w: World, id: int, i: nat, j: nat)
    requires Sound(w) && id != 0 && SeatedAt(w, id, i, j)
    requires w.clients[i].nick != "" && w.clients[j].nick != ""
    ensures Sound(DestroyRoom(w, id, i, j)) && Ends(View(w), View(DestroyRoom(w, id, i, j)), id)
    ensures DestroyRoom(w, id, i, j).rooms == Without(w.rooms, FindRoom(w.rooms, id))
  {
    DestroyRoomResult(w, id, i, j);
    SentHomeSound(w, FindRoom(w.rooms, id), i, j);
  }

  lemma EndsEitherWay(a: Abstract, a': Abstract, r: int, n: string, m: string)
    requires r in a.tables && {n, m} == {a.tables[r].onTurn, a.tables[r].onStand}
    requires a' == Abstract(a.players[n := IN_LOBBY][m := IN_LOBBY], a.tables - {r})
    ensures Ends(a, a', r)
  {
    assert n in {n, m} && m in {n, m};
    assert a.tables[r].onTurn in {n, m} && a.tables[r].onStand in {n, m};
    assert a.players[n := IN_LOBBY][m := IN_LOBBY] == a.players[m := IN_LOBBY][n := IN_LOBBY];
  }

  // ----- Leaving for good

  lemma DropSound(w: World, i: nat)
    requires Sound(w) && i < |w.clients|
    requires w.clients[i].nick == "" || w.clients[i].room == 0
    ensures var w' := w.(clients := Without(w.clients, i));
      Sound(w') && if w.clients[i].nick == "" then View(w') == View(w) else Leaves(View(w), View(w'), w.clients[i].nick)
  {
    var w' := w.(clients := Without(w.clients, i));
    DropPlayers(w.clients, i);
    if w.clients[i].nick != "" {
      FindOwn(w.clients, i);
      LeaveConsistent(View(w), View(w'), w.clients[i].nick);
    } else {
      NoNamelessPlayer(w.clients);
      assert View(w').players == View(w).players;
    }
  }

  lemma GamesLeft(rs: seq<RoomRec>, r: nat)
    requires GamesOk(rs) && r < |rs|
    ensures GamesOk(Without(rs, r))
  {
  }

  /** A client that is no longer stored departs, if it had a name. */
  function SeenDropping(c: ClientRec): seq<Visible> {
    if c.nick == "" then [] else [Departure(c.nick)]
  }

  /** Erasing a client ends its game first, if it has one. */
  function SeenErasing(c: ClientRec): seq<Visible> {
    if LeavesGame(c) then [Ending(c.room), Departure(c.nick)] else SeenDropping(c)
  }

  lemma EndThenLeave(w: World, r: nat, i: nat, j: nat)
    requires WorldOk(w) && r < |w.rooms| && SeatedAt(w, w.rooms[r].id, i, j)
    requires w.clients[i].nick != "" && w.clients[j].nick != ""
    ensures var w' := Dropped(SentHome(w, r, i, j), i);
      && WorldOk(w') && w.clients[i].nick !in View(w').players
      && Follows(View(w), [Ending(w.rooms[r].id), Departure(w.clients[i].nick)], View(w'))
  {
    var w1 := SentHome(w, r, i, j);
    var w2 := Dropped(w1, i);
    SentHomeSound(w, r, i, j);
    GamesLeft(w.rooms, r);
    DropSound(w1, i);
    DropPlayers(w1.clients, i);
    FollowsTwo(View(w), Ending(w.rooms[r].id), View(w1), Departure(w.clients[i].nick), View(w2));
  }

  lemma JustLeave(w: World, i: nat)
    requires WorldOk(w) && i < |w.clients|
    requires w.clients[i].nick == "" || w.clients[i].room == 0
    ensures WorldOk(Dropped(w, i)) && Follows(View(w), SeenDropping(w.clients[i]), View(Dropped(w, i)))
    ensures w.clients[i].nick !in View(Dropped(w, i)).players
  {
    DropSound(w, i);
    DropPlayers(w.clients, i);
    if w.clients[i].nick != "" { FollowsOne(View(w), Departure(w.clients[i].nick), View(Dropped(w, i))); }
  }

  lemma EraseResult(w: World, i: nat, j: nat)
    requires i < |w.clients| && LeavesGame(w.clients[i]) && EraseDefined(w, i)
    requires j == FindNick(w.clients, OpponentOf(w, w.clients[i])) && i != j
    ensures Erase(w, i) == Dropped(SentHome(w, FindRoom(w.rooms, w.clients[i].room), i, j), i)
  {
    DestroyRoomResult(w, w.clients[i].room, i, j);
  }

  lemma EraseFromGame(w: World, i: nat)
    requires WorldOk(w) && i < |w.clients| && LeavesGame(w.clients[i])
    ensures EraseDefined(w, i) && WorldOk(Erase(w, i)) && Follows(View(w), SeenErasing(w.clients[i]), View(Erase(w, i)))
    ensures w.clients[i].nick !in View(Erase(w, i)).players
  {
    var c := w.clients[i];
    AtTable(w, i);
    var j := FindNick(w.clients, OpponentOf(w, c));
    EraseResult(w, i, j);
    EndThenLeave(w, FindRoom(w.rooms, c.room), i, j);
  }

  /** Erasing a disconnected or nameless client: it leaves, after its game, if it was in
      one, has ended. */
  lemma EraseKeeps(w: World, i: nat)
    requires WorldOk(w) && i < |w.clients|
    requires w.clients[i].nick == "" || w.clients[i].state == Disconnected
    ensures EraseDefined(w, i) && WorldOk(Erase(w, i)) && Follows(View(w), SeenErasing(w.clients[i]), View(Erase(w, i)))
    ensures w.clients[i].nick !in View(Erase(w, i)).players
  {
    if LeavesGame(w.clients[i]) {
      EraseFromGame(w, i);
    } else {
      if w.clients[i].nick != "" { ModeFits(w, i); }
      assert Erase(w, i) == Dropped(w, i);
      JustLeave(w, i);
    }
  }

  /** Making room by erasing a client without ending its game is harmless exactly when the
      client has no game. */
  lemma EvictExactly(w: World, i: nat)
    requires WorldOk(w) && i < |w.clients|
    ensures WorldOk(Dropped(w, i)) <==> w.clients[i].nick == "" || w.clients[i].room == 0
    ensures WorldOk(Dropped(w, i)) ==> Follows(View(w), SeenDropping(w.clients[i]), View(Dropped(w, i)))
  {
    var c := w.clients[i];
    if c.nick == "" || c.room == 0 {
      JustLeave(w, i);
    } else {
      AtTable(w, i);
      FindTable(w, c.room);
      DropPlayers(w.clients, i);
      assert View(Dropped(w, i)).tables == View(w).tables;
      assert !TableFits(View(Dropped(w, i)), c.room);
    }
  }

  // ----- Requests that concern one client only

  /** Taking the other state back is harmless: nothing was pending, or the states before and
      now do not differ in whether, and how, the client is playing. */
  predicate PongSafe(c: ClientRec) {
    || Transient(c.state)
    || c.nick == ""
    || (c.stateLast != New && (Playing(c.state) || Playing(c.stateLast) ==> c.stateLast == c.state))
  }

  /** Restoring the last state does not change what the client is doing. */
  predicate Steady(c: ClientRec) {
    Transient(c.state) || c.nick == "" || c.stateLast == c.state
  }

  /** A client that was not steady goes back to its last choice in the lobby. */
  function SeenRestoring(c: ClientRec): seq<Visible> {
    if Steady(c) then [] else [Choice(c.nick, c.stateLast)]
  }

  function Restored(c: ClientRec): ClientRec {
    WithState(c, c.stateLast)
  }

  /** Only clients with an open connection and no pending flags are served. */
  predicate Alive(c: ClientRec) {
    c.sock >= 0 && !c.toDisconnect && !c.toErase
  }

  lemma LobbyChange(w: World, i: nat, c: ClientRec)
    requires WorldOk(w) && i < |w.clients| && w.clients[i].nick != "" && w.clients[i].room == 0
    requires ClientOk(c) && c.nick == w.clients[i].nick && c.room == 0 && Logical(c) in {Waiting, Ready}
    ensures WorldOk(Put(w, i, c)) && Follows(View(w), [Choice(c.nick, Logical(c))], View(Put(w, i, c)))
  {
    ChangeOne(w, i, c);
    FindOwn(w.clients, i);
    DecideConsistent(View(w), View(Put(w, i, c)), c.nick, Logical(c));
    FollowsOne(View(w), Choice(c.nick, Logical(c)), View(Put(w, i, c)));
  }

  lemma RestoreExactly(w: World, i: nat)
    requires WorldOk(w) && i < |w.clients| && Alive(w.clients[i])
    ensures var w' := Put(w, i, Restored(w.clients[i]));
      && (WorldOk(w') <==> PongSafe(w.clients[i]))
      && (PongSafe(w.clients[i]) ==> Follows(View(w), SeenRestoring(w.clients[i]), View(w')))
  {
    var c := w.clients[i];
    var d := Restored(c);
    var w' := Put(w, i, d);
    if Transient(c.state) || c.nick == "" {
      HiddenChange(w, i, d);
    } else {
      ModeFits(w, i);
      RestoreNamed(w, i);
    }
  }

  lemma RestoreNamed(w: World, i: nat)
    requires WorldOk(w) && i < |w.clients| && Alive(w.clients[i])
    requires w.clients[i].nick != "" && !Transient(w.clients[i].state)
    ensures var w' := Put(w, i, Restored(w.clients[i]));
      && (WorldOk(w') <==> PongSafe(w.clients[i]))
      && (PongSafe(w.clients[i]) ==> Follows(View(w), SeenRestoring(w.clients[i]), View(w')))
  {
    var c := w.clients[i];
    var d := Restored(c);
    var w' := Put(w, i, d);
    ModeFits(w, i);
    if PongSafe(c) {
      if c.stateLast == c.state {
        HiddenChange(w, i, d);
      } else {
        LobbyChange(w, i, d);
      }
    } else if WorldOk(w') {
      RestoreBreaks(w, i);
    }
  }

  lemma RestoreBreaks(w: World, i: nat)
    requires WorldOk(w) && i < |w.clients| && w.clients[i].nick != "" && !Transient(w.clients[i].state)
    requires !PongSafe(w.clients[i])
    ensures !WorldOk(Put(w, i, Restored(w.clients[i])))
  {
    var c := w.clients[i];
    var d := Restored(c);
    var w' := Put(w, i, d);
    assert w'.clients[i] == d;
    if c.stateLast != New && WorldOk(w') {
      ModeFits(w, i);
      ModeFits(w', i);
      AtTable(w, i);
      AtTable(w', i);
      assert false;
    }
  }
}
