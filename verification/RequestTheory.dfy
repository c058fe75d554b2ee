/** For every request: exactly when it keeps the server in order, and what it looks like from
    outside. */
module RequestTheory {
  import opened Rules
  import opened RulesTheory
  import opened MoveText
  import opened Session
  import opened Protocol
  import opened Abstraction
  import opened SessionTheory

  // ----- Moves

  /** The clients after a move: `m` played the turn of the player on turn, `s` is next. */
  function TurnPassed(w: World, r: nat, m: nat, s: nat, g: Game): World
    requires m < |w.clients| && s < |w.clients| && r < |w.rooms|
  {
    World(w.clients[s := WithLogical(w.clients[s], PlayingOnTurn)][m := WithState(w.clients[m], PlayingOnStand)],
          w.rooms[r := RoomRec(w.rooms[r].id, g)], w.roomsTotal)
  }

  /** `m` is the client on turn in the room at `r`, `s` the one standing by. */
  predicate AtBoard(w: World, r: nat, m: nat, s: nat) {
    && r < |w.rooms| && m < |w.clients| && s < |w.clients|
    && w.clients[m].nick == w.rooms[r].game.onTurn != ""
    && w.clients[s].nick == w.rooms[r].game.onStand != ""
    && m != s
  }

  lemma TurnPassedSound(w: World, r: nat, m: nat, s: nat, g: Game)
    requires Sound(w) && AtBoard(w, r, m, s) && w.clients[m].state != Disconnected
    requires TableOf(g) == Table(w.rooms[r].game.onStand, w.rooms[r].game.onTurn)
    ensures Sound(TurnPassed(w, r, m, s, g)) && Turns(View(w), View(TurnPassed(w, r, m, s, g)), w.rooms[r].id)
  {
    var w', id := TurnPassed(w, r, m, s, g), w.rooms[r].id;
    TurnPassedTables(w, r, m, s, g);
    TurnPassedPlayers(w, r, m, s, g);
    hide ClientsOk, Players, Tables, RoomIdsOk, NicksDistinct, TurnPassed, Consistent;
    TurnConsistent(View(w), View(w'), id);
  }

  lemma TurnPassedTables(w: World, r: nat, m: nat, s: nat, g: Game)
    requires RoomIdsOk(w) && AtBoard(w, r, m, s)
    requires TableOf(g) == Table(w.rooms[r].game.onStand, w.rooms[r].game.onTurn)
    ensures var w', id := TurnPassed(w, r, m, s, g), w.rooms[r].id;
      && RoomIdsOk(w') && id in Tables(w.rooms) && Tables(w.rooms)[id] == Table(w.clients[m].nick, w.clients[s].nick)
      && Tables(w'.rooms) == Tables(w.rooms)[id := Table(w.clients[s].nick, w.clients[m].nick)]
  {
    hide Tables, WithLogical, WithState;
    RoomLookup(w, r);
    PutTable(w, r, g);
  }

  lemma TurnPassedPlayers(w: World, r: nat, m: nat, s: nat, g: Game)
    requires Sound(w) && AtBoard(w, r, m, s) && w.clients[m].state != Disconnected
    ensures var w', id := TurnPassed(w, r, m, s, g), w.rooms[r].id;
      && ClientsOk(w'.clients) && NicksDistinct(w'.clients)
      && Players(w'.clients) == Players(w.clients)[w.clients[s].nick := Player(PlayingOnTurn, id)][w.clients[m].nick := Player(PlayingOnStand, id)]
  {
    var c, d, id := WithLogical(w.clients[s], PlayingOnTurn), WithState(w.clients[m], PlayingOnStand), w.rooms[r].id;
    RoomLookup(w, r);
    assert TableFits(View(w), id);
    FindOwn(w.clients, m);
    FindOwn(w.clients, s);
    hide Players, Tables, Consistent;
    TwoOthers(w.clients, s, m, c, d);
    assert PlayerOf(c) == Player(PlayingOnTurn, id) && PlayerOf(d) == Player(PlayingOnStand, id);
    TwoClientsOk(w.clients, s, m, c, d);
  }

  lemma TurnPassedBreaks(w: World, r: nat, m: nat, s: nat, g: Game)
    requires Sound(w) && AtBoard(w, r, m, s) && w.clients[m].state == Disconnected
    ensures !ClientOk(TurnPassed(w, r, m, s, g).clients[m])
    ensures !ClientOk(BackInLobby(TurnPassed(w, r, m, s, g).clients[m]))
  {
    assert ClientOk(w.clients[m]);
  }

  ghost function AfterMove(w: World, r: nat, m: nat, s: nat, g: Game): World
    requires m < |w.clients| && s < |w.clients| && r < |w.rooms|
  {
    var w' := TurnPassed(w, r, m, s, g);
    if g.over then SentHome(w', r, s, m) else w'
  }

  lemma RoomKept(w: World, r: nat, g: Game)
    requires RoomIdsOk(w) && r < |w.rooms|
    ensures var rs := w.rooms[r := RoomRec(w.rooms[r].id, g)];
      FindRoom(rs, w.rooms[r].id) == r && Without(rs, r) == Without(w.rooms, r)
  {
    var w' := w.(rooms := w.rooms[r := RoomRec(w.rooms[r].id, g)]);
    PutTable(w, r, g);
    RoomLookup(w', r);
  }

  lemma MoveLookups(w: World, i: nat, coords: string, r: nat, m: nat, s: nat)
    requires Sound(w) && i < |w.clients| && IsMoveText(coords) && AtBoard(w, r, m, s)
    requires w.clients[i].room == w.rooms[r].id
    ensures FindRoom(w.rooms, w.rooms[r].id) == r && HasRoom(w, w.rooms[r].id)
    ensures MoveDefined(w, i, coords)
    ensures FindNick(w.clients, w.rooms[r].game.onTurn) == m && FindNick(w.clients, w.rooms[r].game.onStand) == s
  {
    RoomLookup(w, r);
    FindOwn(w.clients, m);
    FindOwn(w.clients, s);
  }

  /** What handling a legal move comes to. */
  lemma MovedResult(w: World, i: nat, coords: string, r: nat, m: nat, s: nat)
    requires Sound(w) && i < |w.clients| && IsMoveText(coords) && AtBoard(w, r, m, s)
    requires w.clients[i].room == w.rooms[r].id && Legal(w.rooms[r].game, MoveOf(coords))
    ensures MoveDefined(w, i, coords)
    ensures Moved(w, i, coords) == AfterMove(w, r, m, s, Play(w.rooms[r].game, MoveOf(coords)))
  {
    hide Play, Legal, FollowGame, AfterMove, Sound;
    MoveLookups(w, i, coords, r, m, s);
    PlayerSwap(w.rooms[r].game, MoveOf(coords));
    FollowResult(w, r, m, s, Play(w.rooms[r].game, MoveOf(coords)));
  }

  lemma FollowResult(w: World, r: nat, m: nat, s: nat, g: Game)
    requires Sound(w) && AtBoard(w, r, m, s) && HasRoom(w, w.rooms[r].id) && FindRoom(w.rooms, w.rooms[r].id) == r
    requires s == FindNick(w.clients, g.onTurn) && m == FindNick(w.clients, g.onStand)
    ensures FollowGame(WithGame(w, w.rooms[r].id, g), w.rooms[r].id) == AfterMove(w, r, m, s, g)
  {
    var w' := TurnPassed(w, r, m, s, g);
    RoomKept(w, r, g);
    assert TurnTo(WithGame(w, w.rooms[r].id, g), s, m) == w';
    if g.over {
      DestroyRoomResult(w', w.rooms[r].id, s, m);
    }
  }

  /** The turn passes in the room, and if the game is then over, it ends. */
  function SeenMoving(id: int, over: bool): seq<Visible> {
    if over then [Passing(id), Ending(id)] else [Passing(id)]
  }

  lemma MoveKeeps(w: World, r: nat, m: nat, s: nat, g: Game)
    requires WorldOk(w) && AtBoard(w, r, m, s) && w.clients[m].state != Disconnected
    requires TableOf(g) == Table(w.rooms[r].game.onStand, w.rooms[r].game.onTurn)
    requires g.over || GameOk(g)
    ensures WorldOk(AfterMove(w, r, m, s, g))
    ensures Follows(View(w), SeenMoving(w.rooms[r].id, g.over), View(AfterMove(w, r, m, s, g)))
  {
    hide Turns, Ends, GameOk, WithLogical, WithState, Consistent, View, RoomIdsOk, ClientOk, Follows;
    var w1 := TurnPassed(w, r, m, s, g);
    TurnPassedSound(w, r, m, s, g);
    TurnConsistent(View(w), View(w1), w.rooms[r].id);
    if g.over {
      StillSeated(w, r, m, s, g);
      GamesLeft(w.rooms, r);
      SentHomeOk(w1, r, s, m);
      FollowsTwo(View(w), Passing(w.rooms[r].id), View(w1), Ending(w.rooms[r].id), View(AfterMove(w, r, m, s, g)));
    } else {
      FollowsOne(View(w), Passing(w.rooms[r].id), View(w1));
    }
  }

  lemma PlayGoesOn(g: Game, coords: Coords)
    requires GameOk(g) && Legal(g, coords)
    ensures TableOf(Play(g, coords)) == Table(g.onStand, g.onTurn)
    ensures Play(g, coords).over || GameOk(Play(g, coords))
  {
    PlayerSwap(g, coords);
    if !Play(g, coords).over { PlayKeepsGameOk(g, coords); }
  }

  lemma SentHomeOk(w: World, r: nat, i: nat, j: nat)
    requires Sound(w) && r < |w.rooms| && SeatedAt(w, w.rooms[r].id, i, j)
    requires w.clients[i].nick != "" && w.clients[j].nick != ""
    requires GamesOk(Without(w.rooms, r))
    ensures WorldOk(SentHome(w, r, i, j)) && Ends(View(w), View(SentHome(w, r, i, j)), w.rooms[r].id)
  {
    SentHomeSound(w, r, i, j);
    EndConsistent(View(w), View(SentHome(w, r, i, j)), w.rooms[r].id);
  }

  lemma StillSeated(w: World, r: nat, m: nat, s: nat, g: Game)
    requires RoomIdsOk(w) && AtBoard(w, r, m, s)
    requires TableOf(g) == Table(w.rooms[r].game.onStand, w.rooms[r].game.onTurn)
    ensures var w1 := TurnPassed(w, r, m, s, g);
      && SeatedAt(w1, w1.rooms[r].id, s, m) && Without(w1.rooms, r) == Without(w.rooms, r)
      && w1.clients[s].nick != "" && w1.clients[m].nick != ""
  {
    RoomKept(w, r, g);
  }

  /** A client at a table sits at its board, in the role its logical state says. */
  lemma FindBoard(w: World, i: nat) returns (r: nat, m: nat, s: nat)
    requires Sound(w) && i < |w.clients| && w.clients[i].nick != "" && w.clients[i].room != 0
    ensures AtBoard(w, r, m, s) && w.rooms[r].id == w.clients[i].room && r == FindRoom(w.rooms, w.clients[i].room)
    ensures m == FindNick(w.clients, w.rooms[r].game.onTurn) && s == FindNick(w.clients, w.rooms[r].game.onStand)
    ensures if Logical(w.clients[i]) == PlayingOnTurn then m == i && s == FindNick(w.clients, OpponentOf(w, w.clients[i]))
      else s == i && m == FindNick(w.clients, OpponentOf(w, w.clients[i]))
  {
    AtTable(w, i);
    r := FindRoom(w.rooms, w.clients[i].room);
    m := FindNick(w.clients, w.rooms[r].game.onTurn);
    s := FindNick(w.clients, w.rooms[r].game.onStand);
    FindOwn(w.clients, i);
  }

  /** The move is the client's own, or at least does not wake a player who is gone. */
  ghost predicate MoveSafe(w: World, i: nat, coords: string)
    requires i < |w.clients| && IsMoveText(coords)
  {
    var c := w.clients[i];
    || Logical(c) == PlayingOnTurn
    || (Logical(c) == PlayingOnStand && Seated(w, c)
        && (Legal(RoomGame(w, c.room), MoveOf(coords)) ==>
              HasNick(w, OpponentOf(w, c)) && w.clients[FindNick(w.clients, OpponentOf(w, c))].state != Disconnected))
  }

  ghost function SeenMove(w: World, c: ClientRec, coords: string): seq<Visible>
    requires IsMoveText(coords)
  {
    if Seated(w, c) && Legal(RoomGame(w, c.room), MoveOf(coords))
    then SeenMoving(c.room, Play(RoomGame(w, c.room), MoveOf(coords)).over) else []
  }

  /** A routed move request is well-defined and keeps the server in order exactly when it
      comes from the player on turn, or from a pinged player on stand whose move is illegal
      or whose opponent is still connected. */
  lemma MoveExactly(w: World, i: nat, coords: string)
    requires WorldOk(w) && i < |w.clients| && Alive(w.clients[i]) && IsMoveText(coords)
    ensures MoveSafe(w, i, coords) <==> MoveDefined(w, i, coords) && WorldOk(Moved(w, i, coords))
    ensures MoveSafe(w, i, coords) ==> Follows(View(w), SeenMove(w, w.clients[i], coords), View(Moved(w, i, coords)))
  {
    var c := w.clients[i];
    if c.nick == "" || c.room == 0 {
      NoGame(w, i);
      NoLobbyRoom(w);
    } else {
      AtTable(w, i);
      var r, m, s := FindBoard(w, i);
      if Legal(w.rooms[r].game, MoveOf(coords)) {
        MovedResult(w, i, coords, r, m, s);
        if w.clients[m].state != Disconnected {
          PlayGoesOn(w.rooms[r].game, MoveOf(coords));
          MoveKeeps(w, r, m, s, Play(w.rooms[r].game, MoveOf(coords)));
        } else {
          MoveBreaks(w, r, m, s, Play(w.rooms[r].game, MoveOf(coords)));
        }
      }
    }
  }

  lemma MoveBreaks(w: World, r: nat, m: nat, s: nat, g: Game)
    requires Sound(w) && AtBoard(w, r, m, s) && w.clients[m].state == Disconnected
    ensures !WorldOk(AfterMove(w, r, m, s, g))
  {
    TurnPassedBreaks(w, r, m, s, g);
    var w' := AfterMove(w, r, m, s, g);
    assert w'.clients[m] == TurnPassed(w, r, m, s, g).clients[m] || w'.clients[m] == BackInLobby(TurnPassed(w, r, m, s, g).clients[m]);
  }

  /** A connected client without a name, or in the lobby, is not playing and has no room. */
  lemma NoGame(w: World, i: nat)
    requires Sound(w) && i < |w.clients| && Alive(w.clients[i])
    requires w.clients[i].nick == "" || w.clients[i].room == 0
    ensures w.clients[i].room == 0 && !Playing(Logical(w.clients[i]))
    ensures w.clients[i].nick == "" <==> Logical(w.clients[i]) == New
  {
    if w.clients[i].nick != "" { ModeFits(w, i); }
    assert ClientOk(w.clients[i]);
  }

  // ----- Leaving a game, chatting

  lemma LeaveExactly(w: World, i: nat)
    requires WorldOk(w) && i < |w.clients| && Alive(w.clients[i])
    ensures LeaveDefined(w, i) <==> Playing(Logical(w.clients[i]))
    ensures Seated(w, w.clients[i]) <==> Playing(Logical(w.clients[i]))
    ensures LeaveDefined(w, i) ==>
      var w' := DestroyRoom(w, w.clients[i].room, i, FindNick(w.clients, OpponentOf(w, w.clients[i])));
      WorldOk(w') && Follows(View(w), [Ending(w.clients[i].room)], View(w'))
  {
    var c := w.clients[i];
    if c.nick == "" || c.room == 0 {
      NoGame(w, i);
      NoLobbyRoom(w);
    } else {
      AtTable(w, i);
      hide WorldOk, Sound, View, DestroyRoom;
      LeavingEnds(w, i);
    }
  }

  lemma LeavingEnds(w: World, i: nat)
    requires WorldOk(w) && i < |w.clients| && w.clients[i].nick != "" && w.clients[i].room != 0 && LeaveDefined(w, i)
    ensures var w' := DestroyRoom(w, w.clients[i].room, i, FindNick(w.clients, OpponentOf(w, w.clients[i])));
      WorldOk(w') && Follows(View(w), [Ending(w.clients[i].room)], View(w'))
  {
    var c := w.clients[i];
    var j := FindNick(w.clients, OpponentOf(w, c));
    AtTable(w, i);
    DestroyEnds(w, c.room, i, j);
    GamesLeft(w.rooms, FindRoom(w.rooms, c.room));
    hide Sound, Ends, View, DestroyRoom, GameOk;
    FollowsOne(View(w), Ending(c.room), View(DestroyRoom(w, c.room, i, j)));
  }

  // ----- Getting ready

  lemma ReadyExactly(w: World, i: nat)
    requires WorldOk(w) && i < |w.clients| && Alive(w.clients[i])
    ensures var w' := Put(w, i, WithState(w.clients[i], Ready));
      && (WorldOk(w') <==> Logical(w.clients[i]) in {Waiting, Ready})
      && (WorldOk(w') ==> Follows(View(w), [Choice(w.clients[i].nick, Ready)], View(w')))
  {
    var c := w.clients[i];
    var d := WithState(c, Ready);
    var w' := Put(w, i, d);
    assert w'.clients[i] == d;
    if c.nick == "" {
      NoGame(w, i);
    } else {
      ModeFits(w, i);
      if c.room == 0 {
        LobbyChange(w, i, d);
      } else if WorldOk(w') {
        ModeFits(w', i);
      }
    }
  }

  // ----- Connecting

  /** The client at `k` gave up its place: no nick, about to be erased. */
  function Emptied(c: ClientRec): ClientRec {
    c.(nick := "", toErase := true)
  }

  /** The client at `i` under the nick, state and room of `o`. */
  function Successor(c: ClientRec, o: ClientRec): ClientRec {
    WithState(c.(nick := o.nick), o.stateLast).(room := o.room, pings := LONG_PING)
  }

  lemma PutBack<K, V>(m: map<K, V>, k: K)
    requires k in m
    ensures (m - {k})[k := m[k]] == m
  {
  }

  lemma EmptiedPlayers(cs: seq<ClientRec>, k: nat, c: ClientRec)
    requires NicksDistinct(cs) && k < |cs| && cs[k].nick != "" && c.nick == ""
    ensures NicksDistinct(cs[k := c])
    ensures Players(cs[k := c]) == Players(cs) - {cs[k].nick}
    ensures FindNick(cs[k := c], cs[k].nick) == |cs|
  {
    var cs' := cs[k := c];
    PutPlayers(cs, k, c);
    assert (Players(cs) - {cs[k].nick}) + map[] == Players(cs) - {cs[k].nick};
    assert forall j :: 0 <= j < |cs'| ==> cs'[j].nick != cs[k].nick;
  }

  /** A nameless client takes the place of a named one, who loses the name. */
  lemma Succession(cs: seq<ClientRec>, i: nat, k: nat, c: ClientRec, e: ClientRec)
    requires NicksDistinct(cs) && i < |cs| && k < |cs| && i != k
    requires cs[i].nick == "" && cs[k].nick != "" && e.nick == ""
    requires c.nick == cs[k].nick && PlayerOf(c) == PlayerOf(cs[k])
    ensures NicksDistinct(cs[i := c][k := e])
    ensures Players(cs[i := c][k := e]) == Players(cs)
  {
    var cs1 := cs[k := e];
    assert cs[i := c][k := e] == cs1[i := c];
    FindOwn(cs, k);
    EmptiedPlayers(cs, k, e);
    NamedPlayer(cs1, i, c);
    PutBack(Players(cs), c.nick);
  }

  lemma Renaming(cs: seq<ClientRec>, i: nat, k: nat, c: ClientRec, e: ClientRec)
    requires NicksDistinct(cs) && i < |cs| && k < |cs| && i != k
    requires cs[i].nick != "" && cs[k].nick != "" && e.nick == ""
    requires c.nick == cs[k].nick && PlayerOf(c) == PlayerOf(cs[k])
    ensures NicksDistinct(cs[i := c][k := e])
    ensures Players(cs[i := c][k := e]) == Players(cs) - {cs[i].nick}
  {
    var cs0 := cs[i := cs[i].(nick := "")];
    EmptiedPlayers(cs, i, cs[i].(nick := ""));
    Succession(cs0, i, k, c, e);
    assert cs0[i := c] == cs[i := c];
  }

  lemma TakeOverClients(w: World, i: nat, k: nat)
    requires i < |w.clients| && k < |w.clients| && i != k
    ensures TakeOver(w, i, k, w.clients[k].nick) ==
      w.(clients := w.clients[i := Successor(w.clients[i], w.clients[k])][k := Emptied(w.clients[k])])
  {
  }

  lemma SuccessorOk(c: ClientRec, o: ClientRec)
    requires ClientOk(c) && Alive(c) && ClientOk(o) && o.state == Disconnected && o.nick != ""
    ensures ClientOk(Successor(c, o)) && ClientOk(Emptied(o)) && PlayerOf(Successor(c, o)) == PlayerOf(o)
  {
  }

  /** A nameless client continues as the disconnected `k`: nobody sees a difference. */
  lemma TakeOverHidden(w: World, i: nat, k: nat)
    requires WorldOk(w) && i < |w.clients| && k < |w.clients| && i != k
    requires Alive(w.clients[i]) && w.clients[i].nick == ""
    requires w.clients[k].nick != "" && w.clients[k].state == Disconnected
    ensures WorldOk(TakeOver(w, i, k, w.clients[k].nick)) && View(TakeOver(w, i, k, w.clients[k].nick)) == View(w)
  {
    var c, o := w.clients[i], w.clients[k];
    TakeOverClients(w, i, k);
    SuccessorOk(c, o);
    Succession(w.clients, i, k, Successor(c, o), Emptied(o));
    TwoClientsOk(w.clients, i, k, Successor(c, o), Emptied(o));
  }

  /** A client in the lobby that already had a name gives it up when it takes over another. */
  lemma TakeOverNamed(w: World, i: nat, k: nat)
    requires WorldOk(w) && i < |w.clients| && k < |w.clients| && i != k
    requires Alive(w.clients[i]) && w.clients[i].nick != "" && w.clients[i].room == 0
    requires w.clients[k].nick != "" && w.clients[k].state == Disconnected
    ensures WorldOk(TakeOver(w, i, k, w.clients[k].nick))
    ensures Leaves(View(w), View(TakeOver(w, i, k, w.clients[k].nick)), w.clients[i].nick)
  {
    var c, o := w.clients[i], w.clients[k];
    TakeOverClients(w, i, k);
    SuccessorOk(c, o);
    FindOwn(w.clients, i);
    Renaming(w.clients, i, k, Successor(c, o), Emptied(o));
    TwoClientsOk(w.clients, i, k, Successor(c, o), Emptied(o));
    LeaveConsistent(View(w), View(TakeOver(w, i, k, o.nick)), c.nick);
  }

  /** Taking over from inside a game leaves the other player at a table alone. */
  lemma TakeOverFromGame(w: World, i: nat, k: nat)
    requires WorldOk(w) && i < |w.clients| && k < |w.clients| && i != k
    requires w.clients[i].nick != "" && w.clients[i].room != 0 && w.clients[k].nick != ""
    ensures !WorldOk(TakeOver(w, i, k, w.clients[k].nick))
  {
    var w' := TakeOver(w, i, k, w.clients[k].nick);
    AtTable(w, i);
    FindTable(w, w.clients[i].room);
    FindTable(w', w.clients[i].room);
    TakenOverIsGone(w, i, k);
    hide TakeOver, Sound, RoomIdsOk, View;
    if NicksDistinct(w'.clients) {
      AloneAtTable(w', w.clients[i].room, w.clients[i].nick);
    }
  }

  /** A table that names a player who is not there. */
  lemma AloneAtTable(w: World, r: int, n: string)
    requires NicksDistinct(w.clients) && r in View(w).tables && n != "" && !HasNick(w, n)
    requires n == View(w).tables[r].onTurn || n == View(w).tables[r].onStand
    ensures !Sound(w)
  {
    FindPlayer(w.clients, n);
    assert !TableFits(View(w), r);
    NotSound(w, r);
  }

  lemma NotSound(w: World, r: int)
    requires r in View(w).tables && !TableFits(View(w), r)
    ensures !Sound(w)
  {
  }

  /** The name of a client that takes another is no longer there. */
  lemma TakenOverIsGone(w: World, i: nat, k: nat)
    requires NicksDistinct(w.clients) && i < |w.clients| && k < |w.clients| && i != k && w.clients[i].nick != ""
    ensures var w' := TakeOver(w, i, k, w.clients[k].nick);
      && |w'.clients| == |w.clients| && w'.rooms == w.rooms && w'.roomsTotal == w.roomsTotal
      && FindNick(w'.clients, w.clients[i].nick) == |w'.clients|
  {
    var w', n := TakeOver(w, i, k, w.clients[k].nick), w.clients[i].nick;
    forall j | 0 <= j < |w'.clients| ensures w'.clients[j].nick != n {
      assert j == i || j == k || w'.clients[j] == w.clients[j];
    }
  }

  /** Taking over a client that is not disconnected leaves a nameless one behind. */
  lemma TakeOverReady(w: World, i: nat, k: nat)
    requires WorldOk(w) && i < |w.clients| && k < |w.clients|
    requires Alive(w.clients[i]) && w.clients[k].nick != "" && w.clients[k].state == Ready
    ensures !WorldOk(TakeOver(w, i, k, w.clients[k].nick))
  {
    var w' := TakeOver(w, i, k, w.clients[k].nick);
    assert ClientOk(w.clients[k]);
    assert !ClientOk(w'.clients[k]);
  }

  predicate ConnectSafe(w: World, i: nat, nick: string)
    requires i < |w.clients|
  {
    var c := w.clients[i];
    var k := FindNickAndIp(w.clients, nick, c.ip);
    HasNick(w, nick) && k < |w.clients| ==>
      match w.clients[k].state
      case Pinged => PongSafe(c)
      case Lost => PongSafe(c)
      case Disconnected => c.nick == "" || c.room == 0
      case Ready => false
      case _ => true
  }

  /** A client that takes over another gives up the name it had. */
  function SeenReconnecting(w: World, i: nat, k: nat): seq<Visible>
    requires i < |w.clients| && k < |w.clients|
  {
    match w.clients[k].state
    case Pinged => SeenRestoring(w.clients[i])
    case Lost => SeenRestoring(w.clients[i])
    case Disconnected => SeenDropping(w.clients[i])
    case _ => []
  }

  function SeenConnecting(w: World, i: nat, nick: string): seq<Visible>
    requires i < |w.clients|
  {
    var c := w.clients[i];
    var k := FindNickAndIp(w.clients, nick, c.ip);
    if !HasNick(w, nick) then
      if FreeToName(c) then [Arrival(nick)] else []
    else if k == |w.clients| then []
    else SeenReconnecting(w, i, k)
  }

  lemma ReconnectLookups(w: World, i: nat, k: nat)
    requires WorldOk(w) && i < |w.clients| && k < |w.clients| && Alive(w.clients[i]) && w.clients[k].nick != ""
    ensures ReconnectDefined(w, i, k)
    ensures w.clients[k].state != New
  {
    if w.clients[i].nick != "" && w.clients[i].room != 0 { AtTable(w, i); }
    if w.clients[i].nick == "" { NoGame(w, i); }
    if w.clients[k].room != 0 { AtTable(w, k); }
    ModeFits(w, k);
  }

  lemma SameClient(w: World, i: nat, k: nat)
    requires WorldOk(w) && i < |w.clients| && k < |w.clients| && w.clients[k].nick != ""
    ensures (i == k <==> w.clients[i].nick == w.clients[k].nick) && !Transient(w.clients[k].stateLast)
  {
    FindOwn(w.clients, k);
    if w.clients[i].nick != "" { FindOwn(w.clients, i); }
    assert ClientOk(w.clients[k]);
  }

  /** A request for the nick of a client that has been pinged restores the client that sends
      it; the one that has the nick is restored exactly when it is the sender. */
  lemma OwnerRestoredExactly(w: World, i: nat, k: nat)
    requires WorldOk(w) && i < |w.clients| && k < |w.clients| && Alive(w.clients[i])
    requires w.clients[k].nick != "" && w.clients[k].state in {Pinged, Lost}
    ensures var w' := Reconnect(w, i, k, w.clients[k].nick);
      && |w'.clients| == |w.clients| && w'.clients[i] == Restored(w.clients[i])
      && (w'.clients[k] == Restored(w.clients[k]) <==> w.clients[i].nick == w.clients[k].nick)
  {
    hide WorldOk, TakeOver;
    SameClient(w, i, k);
  }

  lemma ReconnectExactly(w: World, i: nat, k: nat)
    requires WorldOk(w) && i < |w.clients| && k < |w.clients| && Alive(w.clients[i]) && w.clients[k].nick != ""
    requires FindNickAndIp(w.clients, w.clients[k].nick, w.clients[i].ip) == k && HasNick(w, w.clients[k].nick)
    ensures ConnectSafe(w, i, w.clients[k].nick) <==> WorldOk(Reconnect(w, i, k, w.clients[k].nick))
    ensures ConnectSafe(w, i, w.clients[k].nick) ==>
      Follows(View(w), SeenReconnecting(w, i, k), View(Reconnect(w, i, k, w.clients[k].nick)))
  {
    ReconnectLookups(w, i, k);
    match w.clients[k].state
    case Pinged => RestoreExactly(w, i);
    case Lost => RestoreExactly(w, i);
    case Ready => TakeOverReady(w, i, k);
    case Disconnected => ReconnectLong(w, i, k);
    case _ =>
  }

  /** A client that comes back into a game is told the opponent it plays, whether it is on
      turn, and a text from which exactly the current board of its room can be read. */
  lemma ReplyExactly(w: World, i: nat, k: nat)
    requires WorldOk(w) && i < |w.clients| && k < |w.clients| && Alive(w.clients[i]) && w.clients[k].nick != ""
    requires FindNickAndIp(w.clients, w.clients[k].nick, w.clients[i].ip) == k && HasNick(w, w.clients[k].nick)
    requires ConnectSafe(w, i, w.clients[k].nick)
    ensures ReconnectDefined(w, i, k)
    ensures var w' := Reconnect(w, i, k, w.clients[k].nick); var c := w'.clients[i];
      match ReconnectReply(w, i, k, w.clients[k].nick)
      case NickUsed => w' == w
      case LobbyAgain => c.room == 0
      case GameAgain(onTurn, opponent, playfield) =>
        && Seated(w, c) && c.room != 0
        && var g := RoomGame(w, c.room);
           && ReadPlayfield(playfield) == g.board && {c.nick, opponent} == {g.onTurn, g.onStand}
           && (onTurn <==> g.onTurn == c.nick)
  {
    ReconnectLookups(w, i, k);
    ReconnectExactly(w, i, k);
    if Recognised(w.clients[k].state) {
      ReconnectSeated(w, i, k, w.clients[k].nick);
      RestoredState(w, i, k);
      hide WorldOk, Reconnect, ReadPlayfield, ReconnectDefined, ConnectSafe, RoomReply;
      ReplyFromRoom(Reconnect(w, i, k, w.clients[k].nick), i);
    }
  }

  lemma ReplyFromRoom(w: World, i: nat)
    requires WorldOk(w) && i < |w.clients| && !Transient(w.clients[i].state) && w.clients[i].sock >= 0
    requires w.clients[i].room != 0 ==> Seated(w, w.clients[i])
    ensures var c := w.clients[i];
      match RoomReply(w, i)
      case NickUsed => false
      case LobbyAgain => c.room == 0
      case GameAgain(onTurn, opponent, playfield) =>
        && Seated(w, c) && c.room != 0
        && var g := RoomGame(w, c.room);
           && ReadPlayfield(playfield) == g.board && {c.nick, opponent} == {g.onTurn, g.onStand}
           && (onTurn <==> g.onTurn == c.nick)
  {
    var c := w.clients[i];
    hide WorldOk, Sound, ReadPlayfield, PlayfieldText;
    if c.room != 0 {
      PlayfieldRoundTrip(RoomGame(w, c.room).board);
      InRole(w, i);
    }
  }

  lemma InRole(w: World, i: nat)
    requires WorldOk(w) && i < |w.clients| && !Transient(w.clients[i].state) && w.clients[i].sock >= 0 && w.clients[i].room != 0
    ensures Seated(w, w.clients[i])
    ensures var c := w.clients[i]; var g := RoomGame(w, c.room);
      {c.nick, OpponentIn(g, c.nick)} == {g.onTurn, g.onStand} && (c.state == PlayingOnTurn <==> g.onTurn == c.nick)
  {
    InGameHasNick(w, i);
    AtTable(w, i);
    hide WorldOk, Sound;
  }

  /** A client that has just come back is in the state it had before. */
  lemma RestoredState(w: World, i: nat, k: nat)
    requires WorldOk(w) && i < |w.clients| && k < |w.clients| && Recognised(w.clients[k].state) && Alive(w.clients[i])
    requires ConnectSafe(w, i, w.clients[k].nick) && w.clients[k].nick != ""
    requires FindNickAndIp(w.clients, w.clients[k].nick, w.clients[i].ip) == k && HasNick(w, w.clients[k].nick)
    ensures var c := Reconnect(w, i, k, w.clients[k].nick).clients[i]; !Transient(c.state) && c.sock >= 0
  {
    assert ClientOk(w.clients[i]) && ClientOk(w.clients[k]);
    ReconnectLookups(w, i, k);
  }

  lemma InGameHasNick(w: World, i: nat)
    requires WorldOk(w) && i < |w.clients| && w.clients[i].room != 0 && w.clients[i].sock >= 0
    ensures w.clients[i].nick != ""
  {
    assert ClientOk(w.clients[i]);
  }

  lemma ReconnectLong(w: World, i: nat, k: nat)
    requires WorldOk(w) && i < |w.clients| && k < |w.clients| && Alive(w.clients[i])
    requires w.clients[k].nick != "" && w.clients[k].state == Disconnected
    ensures var w' := TakeOver(w, i, k, w.clients[k].nick);
      && (WorldOk(w') <==> w.clients[i].nick == "" || w.clients[i].room == 0)
      && (WorldOk(w') ==> Follows(View(w), SeenDropping(w.clients[i]), View(w')))
  {
    var w' := TakeOver(w, i, k, w.clients[k].nick);
    assert ClientOk(w.clients[k]) && i != k;
    if w.clients[i].nick == "" {
      TakeOverHidden(w, i, k);
    } else if w.clients[i].room == 0 {
      TakeOverNamed(w, i, k);
      FollowsOne(View(w), Departure(w.clients[i].nick), View(w'));
    } else {
      TakeOverFromGame(w, i, k);
    }
  }

  lemma ConnectExactly(w: World, i: nat, nick: string)
    requires WorldOk(w) && i < |w.clients| && Alive(w.clients[i]) && nick != ""
    ensures ConnectDefined(w, i, nick)
    ensures ConnectSafe(w, i, nick) <==> WorldOk(Connecting(w, i, nick))
    ensures ConnectSafe(w, i, nick) ==> Follows(View(w), SeenConnecting(w, i, nick), View(Connecting(w, i, nick)))
  {
    var c := w.clients[i];
    var k := FindNickAndIp(w.clients, nick, c.ip);
    if HasNick(w, nick) && k < |w.clients| {
      ReconnectLookups(w, i, k);
      ReconnectExactly(w, i, k);
    } else if !HasNick(w, nick) && FreeToName(c) {
      var d := WithState(c.(nick := nick), Waiting).(stateLast := Waiting);
      assert ClientOk(c);
      NameClient(w, i, d);
      FollowsOne(View(w), Arrival(nick), View(Put(w, i, d)));
    }
  }

  // ----- All requests

  /** When a request may be handled; a caller can check it before the call. */
  ghost predicate Safe(w: World, i: nat, rq: Request)
    requires i < |w.clients| && WellFormed(rq)
  {
    var c := w.clients[i];
    Routed(c.state, rq) ==>
      match rq
      case Connect(nick) => ConnectSafe(w, i, nick)
      case GetReady => Logical(c) in {Waiting, Ready}
      case Move(coords) => MoveSafe(w, i, coords)
      case Leave => Playing(Logical(c))
      case Pong => PongSafe(c)
      case Chat(_) => Playing(Logical(c))
      case _ => true
  }

  /** The events that a request may bring about, by what it asks for and who asks. */
  ghost function SeenRequest(w: World, i: nat, rq: Request): seq<Visible>
    requires i < |w.clients| && WellFormed(rq)
  {
    var c := w.clients[i];
    if !Routed(c.state, rq) then []
    else
      match rq
      case Connect(nick) => SeenConnecting(w, i, nick)
      case GetReady => [Choice(c.nick, Ready)]
      case Move(coords) => SeenMove(w, c, coords)
      case Leave => [Ending(c.room)]
      case Pong => SeenRestoring(c)
      case _ => []
  }

  /** Handling a request of a connected client follows no dangling lookup and keeps the
      server in order exactly when the request is safe; seen from outside it is then the
      events of this request, and nothing else. */
  lemma HandleExactly(w: World, i: nat, rq: Request)
    requires WorldOk(w) && i < |w.clients| && Alive(w.clients[i]) && WellFormed(rq)
    ensures Safe(w, i, rq) <==> Defined(w, i, rq) && WorldOk(Handle(w, i, rq))
    ensures Safe(w, i, rq) ==> Follows(View(w), SeenRequest(w, i, rq), View(Handle(w, i, rq)))
  {
    var c := w.clients[i];
    if Routed(c.state, rq) {
      match rq
      case Connect(nick) => ConnectExactly(w, i, nick);
      case GetReady => ReadyExactly(w, i);
      case Move(coords) => MoveExactly(w, i, coords);
      case Leave => LeaveExactly(w, i);
      case Ping => RestoreExactly(w, i);
      case Pong => RestoreExactly(w, i);
      case Chat(_) => LeaveExactly(w, i);
      case Unknown =>
    }
  }

  // ----- What each request is for

  /** A legal move is played on the board of the room; a room whose game is over is gone, and
      no other room changes. */
  lemma MoveEffect(w: World, i: nat, coords: string)
    requires WorldOk(w) && i < |w.clients| && Alive(w.clients[i]) && IsMoveText(coords)
    requires MoveSafe(w, i, coords) && MoveDefined(w, i, coords)
    ensures var g := RoomGame(w, w.clients[i].room); var w' := Moved(w, i, coords);
      if Legal(g, MoveOf(coords)) then
        w'.rooms == (var r := FindRoom(w.rooms, w.clients[i].room);
             if Play(g, MoveOf(coords)).over then Without(w.rooms, r)
             else w.rooms[r := RoomRec(w.clients[i].room, Play(g, MoveOf(coords)))])
      else w' == w
  {
    var c := w.clients[i];
    NoLobbyRoom(w);
    if c.nick == "" { NoGame(w, i); }
    var r, m, s := FindBoard(w, i);
    var g := w.rooms[r].game;
    if Legal(g, MoveOf(coords)) {
      MovedResult(w, i, coords, r, m, s);
      RoomKept(w, r, Play(g, MoveOf(coords)));
    }
  }

  lemma ReadyEffect(w: World, i: nat)
    requires WorldOk(w) && i < |w.clients| && Alive(w.clients[i]) && Logical(w.clients[i]) in {Waiting, Ready}
    ensures Decides(View(w), View(Put(w, i, WithState(w.clients[i], Ready))), w.clients[i].nick, Ready)
  {
    var c := w.clients[i];
    if c.nick == "" { NoGame(w, i); }
    ModeFits(w, i);
    assert ClientOk(c);
    ChangeOne(w, i, WithState(c, Ready));
    FindOwn(w.clients, i);
  }

  lemma ConnectEffect(w: World, i: nat, nick: string)
    requires WorldOk(w) && i < |w.clients| && Alive(w.clients[i]) && nick != "" && !HasNick(w, nick)
    ensures var c, w' := w.clients[i], Connecting(w, i, nick);
      if FreeToName(c) then Enters(View(w), View(w'), nick) && w'.clients[i].nick == nick
      else w' == w
  {
    var c := w.clients[i];
    if FreeToName(c) {
      assert ClientOk(c);
      NameClient(w, i, WithState(c.(nick := nick), Waiting).(stateLast := Waiting));
    }
  }

  lemma LeaveEffect(w: World, i: nat)
    requires WorldOk(w) && i < |w.clients| && Alive(w.clients[i]) && Playing(Logical(w.clients[i])) && LeaveDefined(w, i)
    ensures var c := w.clients[i];
      Ends(View(w), View(DestroyRoom(w, c.room, i, FindNick(w.clients, OpponentOf(w, c)))), c.room)
  {
    var c := w.clients[i];
    NoLobbyRoom(w);
    if c.nick == "" { NoGame(w, i); }
    AtTable(w, i);
    DestroyEnds(w, c.room, i, FindNick(w.clients, OpponentOf(w, c)));
  }

  /** What a request that is routed and safe means to the outside: a new nick enters the
      lobby, a player gets ready, a legal move passes the turn or ends the game and is played
      on the board of the room, an illegal one changes nothing, and leaving ends the game. */
  lemma RequestEffect(w: World, i: nat, rq: Request)
    requires WorldOk(w) && i < |w.clients| && Alive(w.clients[i]) && WellFormed(rq)
    requires Safe(w, i, rq) && Routed(w.clients[i].state, rq)
    ensures Defined(w, i, rq)
    ensures var c, w' := w.clients[i], Handle(w, i, rq);
      match rq
      case Connect(nick) => !HasNick(w, nick) ==>
        if FreeToName(c) then Enters(View(w), View(w'), nick) && w'.clients[i].nick == nick else w' == w
      case GetReady => Decides(View(w), View(w'), c.nick, Ready)
      case Move(coords) =>
        && Seated(w, c)
        && var g := RoomGame(w, c.room);
           if Legal(g, MoveOf(coords)) then Follows(View(w), SeenMoving(c.room, Play(g, MoveOf(coords)).over), View(w'))
           else w' == w
      case Leave => Ends(View(w), View(w'), c.room)
      case _ => w'.rooms == w.rooms
  {
    hide WorldOk, View, Connecting, Moved, DestroyRoom, Enters, Decides, Ends, Play, Legal;
    HandleExactly(w, i, rq);
    match rq
    case Connect(nick) => if !HasNick(w, nick) { ConnectEffect(w, i, nick); }
    case GetReady => ReadyEffect(w, i);
    case Move(coords) => MoveEffect(w, i, coords);
    case Leave => LeaveEffect(w, i);
    case _ =>
  }

  // ----- Whose move it is

  /** A client whose move is accepted is the one on turn in its room exactly when its own state
      says so; otherwise it is the player standing by, who has been pinged, and it moves a
      stone of its opponent. */
  lemma TurnExactly(w: World, i: nat, coords: string)
    requires WorldOk(w) && i < |w.clients| && Alive(w.clients[i]) && IsMoveText(coords)
    requires Defined(w, i, Move(coords)) && Accepted(w, i, Move(coords))
    ensures var c := w.clients[i]; var g := RoomGame(w, c.room);
      && (g.onTurn == c.nick <==> Logical(c) == PlayingOnTurn)
      && (g.onTurn != c.nick ==> g.onStand == c.nick && c.state == Pinged && c.stateLast == PlayingOnStand)
  {
    var c := w.clients[i];
    NoLobbyRoom(w);
    if c.nick == "" { NoGame(w, i); }
    AtTable(w, i);
  }

  /** When a move ends the game the winner is told to the player whose turn it was, and that is
      the client that asked for the move exactly when its state said that it was on turn. */
  lemma WinnerExactly(w: World, i: nat, coords: string)
    requires WorldOk(w) && i < |w.clients| && Alive(w.clients[i]) && IsMoveText(coords)
    requires Defined(w, i, Move(coords)) && Accepted(w, i, Move(coords))
    requires Play(RoomGame(w, w.clients[i].room), MoveOf(coords)).over
    ensures WinnerTold(w, i, coords) == i <==> Logical(w.clients[i]) == PlayingOnTurn
    ensures LoserTold(w, i, coords) == i <==> Logical(w.clients[i]) == PlayingOnStand
    ensures WinnerTold(w, i, coords) < |w.clients| && LoserTold(w, i, coords) < |w.clients|
    ensures WinnerTold(w, i, coords) != LoserTold(w, i, coords)
  {
    var c := w.clients[i];
    NoLobbyRoom(w);
    if c.nick == "" { NoGame(w, i); }
    var r, m, s := FindBoard(w, i);
    PlayerSwap(w.rooms[r].game, MoveOf(coords));
    TurnExactly(w, i, coords);
  }
}
