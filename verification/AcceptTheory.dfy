/** Who may ask for what: which requests are accepted, by what is asked, in which state, and
    what a client that asks for a nick becomes. */
module AcceptTheory {
  import opened Rules
  import opened MoveText
  import opened Session
  import opened Abstraction
  import opened SessionTheory
  import opened RequestTheory

  // ----- Requests by state

  /** The nick is in use. */
  predicate NickInUse(w: World, nick: string) {
    exists k :: 0 <= k < |w.clients| && w.clients[k].nick == nick
  }

  lemma NickInUseExactly(w: World, nick: string)
    ensures HasNick(w, nick) <==> NickInUse(w, nick)
  {
  }

  /** The request is one that the client may make in the state it is in. */
  ghost predicate Welcome(w: World, i: nat, rq: Request)
    requires i < |w.clients| && WellFormed(rq)
  {
    var c := w.clients[i];
    match rq
    case Connect(nick) => NickInUse(w, nick) || c.nick == ""
    case GetReady => c.state in {Waiting, Pinged}
    case Move(coords) =>
      && c.state in {PlayingOnTurn, Pinged}
      && (exists r :: 0 <= r < |w.rooms| && w.rooms[r].id == c.room && Legal(w.rooms[r].game, MoveOf(coords)))
    case Leave => c.state in {PlayingOnTurn, PlayingOnStand, Pinged} && c.room != 0
    case Chat(_) => c.state in {PlayingOnTurn, PlayingOnStand, Pinged} && c.room != 0
    case Ping => true
    case Pong => true
    case Unknown => false
  }

  /** A request about a game, from a client in the lobby whose ping is pending. */
  predicate Astray(c: ClientRec, rq: Request) {
    c.state == Pinged && c.room == 0 && (rq.Move? || rq.Leave? || rq.Chat?)
  }

  /** On a server in order, what a connected client asks for follows a lookup to nothing
      exactly when it is about a game, comes while a ping is pending, and the client is in no
      game.  Everything else is accepted exactly when it is welcome. */
  lemma AcceptedExactly(w: World, i: nat, rq: Request)
    requires WorldOk(w) && i < |w.clients| && Alive(w.clients[i]) && WellFormed(rq)
    ensures Defined(w, i, rq) <==> !Astray(w.clients[i], rq)
    ensures Defined(w, i, rq) ==> (Accepted(w, i, rq) <==> Welcome(w, i, rq))
  {
    hide WorldOk, MoveDefined, ConnectDefined, Legal, HasNick, FreeToName, NickInUse;
    InOrOut(w, i);
    match rq
    case Connect(nick) => ConnectAccepted(w, i, nick);
    case Move(coords) => MoveAccepted(w, i, coords);
    case _ =>
  }

  /** A client with a room finds it, and its opponent; one without is not playing. */
  lemma InOrOut(w: World, i: nat)
    requires WorldOk(w) && i < |w.clients| && Alive(w.clients[i])
    ensures var c := w.clients[i];
      && (c.room != 0 <==> Playing(Logical(c)))
      && (Seated(w, c) <==> c.room != 0) && (c.room != 0 ==> HasNick(w, OpponentOf(w, c)))
  {
    NoLobbyRoom(w);
    if w.clients[i].nick == "" || w.clients[i].room == 0 {
      NoGame(w, i);
    } else {
      AtTable(w, i);
    }
  }

  lemma ConnectAccepted(w: World, i: nat, nick: string)
    requires WorldOk(w) && i < |w.clients| && Alive(w.clients[i]) && 3 <= |nick| <= 20
    ensures Defined(w, i, Connect(nick))
    ensures Accepted(w, i, Connect(nick)) <==> NickInUse(w, nick) || w.clients[i].nick == ""
  {
    ConnectExactly(w, i, nick);
    NickInUseExactly(w, nick);
    MayTakeName(w, i);
  }

  lemma MayTakeName(w: World, i: nat)
    requires WorldOk(w) && i < |w.clients| && Alive(w.clients[i])
    ensures FreeToName(w.clients[i]) <==> w.clients[i].nick == ""
  {
    var c := w.clients[i];
    assert ClientOk(c);
    if c.nick != "" { ModeFits(w, i); }
  }

  /** Looking for the room of a client with a legal move in it. */
  lemma LegalInRoom(w: World, i: nat, m: Coords)
    requires WorldOk(w) && i < |w.clients| && Seated(w, w.clients[i])
    ensures Legal(RoomGame(w, w.clients[i].room), m) <==>
      exists r :: 0 <= r < |w.rooms| && w.rooms[r].id == w.clients[i].room && Legal(w.rooms[r].game, m)
  {
    var id := w.clients[i].room;
    forall r | 0 <= r < |w.rooms| && w.rooms[r].id == id ensures r == FindRoom(w.rooms, id) {
      RoomLookup(w, r);
    }
    hide Legal, WorldOk;
  }

  lemma MoveAccepted(w: World, i: nat, coords: string)
    requires WorldOk(w) && i < |w.clients| && Alive(w.clients[i]) && IsMoveText(coords)
    ensures Defined(w, i, Move(coords)) <==> !Astray(w.clients[i], Move(coords))
    ensures Defined(w, i, Move(coords)) ==> (Accepted(w, i, Move(coords)) <==> Welcome(w, i, Move(coords)))
  {
    hide Legal, MoveOf, WorldOk, MoveDefined, Moved;
    InOrOut(w, i);
    MoveExactly(w, i, coords);
    var c := w.clients[i];
    if c.room != 0 {
      LegalInRoom(w, i, MoveOf(coords));
      MoveFound(w, i, coords);
    } else {
      assert !MoveDefined(w, i, coords) by {
        assert !Seated(w, c);
        NoRoomNoMove(w, i, coords);
      }
    }
  }

  lemma NoRoomNoMove(w: World, i: nat, coords: string)
    requires i < |w.clients| && IsMoveText(coords) && !Seated(w, w.clients[i])
    ensures !MoveDefined(w, i, coords)
  {
  }

  lemma MoveFound(w: World, i: nat, coords: string)
    requires WorldOk(w) && i < |w.clients| && Alive(w.clients[i]) && IsMoveText(coords) && w.clients[i].room != 0
    ensures MoveDefined(w, i, coords)
  {
    InGameHasNick(w, i);
    var r, m, s := FindBoard(w, i);
    MoveLookups(w, i, coords, r, m, s);
  }

  // ----- Nicks

  /** A free nick is given to a client that has none, and to no other; the client is then
      waiting in the lobby under that nick, and nothing else has changed. */
  lemma NamedExactly(w: World, i: nat, nick: string)
    requires WorldOk(w) && i < |w.clients| && Alive(w.clients[i]) && 3 <= |nick| <= 20 && !NickInUse(w, nick)
    ensures Defined(w, i, Connect(nick))
    ensures Accepted(w, i, Connect(nick)) <==> w.clients[i].nick == ""
    ensures Handle(w, i, Connect(nick)) ==
      if w.clients[i].nick == "" then
        w.(clients := w.clients[i := w.clients[i].(nick := nick, state := Waiting, stateLast := Waiting)])
      else w
  {
    ConnectAccepted(w, i, nick);
    NickInUseExactly(w, nick);
    MayTakeName(w, i);
  }

  /** The client restored to its last state. */
  function Again(c: ClientRec): ClientRec {
    c.(state := c.stateLast, stateLast := if c.state in {Pinged, Lost, Disconnected} then c.stateLast else c.state)
  }

  /** The client with the identity of another: its nick, its room and what it was doing. */
  function As(c: ClientRec, o: ClientRec): ClientRec {
    c.(nick := o.nick, room := o.room, pings := 2, state := o.stateLast,
       stateLast := if c.state in {Pinged, Lost, Disconnected} then c.stateLast else c.state)
  }

  /** The owner of the nick is found, from its own address only. */
  lemma OwnerFound(w: World, i: nat, k: nat)
    requires WorldOk(w) && i < |w.clients| && k < |w.clients| && w.clients[k].nick != ""
    ensures HasNick(w, w.clients[k].nick)
    ensures FindNickAndIp(w.clients, w.clients[k].nick, w.clients[i].ip) ==
      if w.clients[k].ip == w.clients[i].ip then k else |w.clients|
  {
    FindOwn(w.clients, k);
    var j := FindNickAndIp(w.clients, w.clients[k].nick, w.clients[i].ip);
    if j < |w.clients| { LookupsAgree(w.clients, w.clients[k].nick, w.clients[i].ip); }
    hide WorldOk;
  }

  lemma HandedOver(w: World, i: nat, k: nat)
    requires i < |w.clients| && k < |w.clients|
    ensures TakeOver(w, i, k, w.clients[k].nick) ==
      if i == k then w.(clients := w.clients[i := As(w.clients[i], w.clients[k]).(nick := "", toErase := true)])
      else w.(clients := w.clients[i := As(w.clients[i], w.clients[k])][k := w.clients[k].(nick := "", toErase := true)])
  {
    assert w.clients[i := As(w.clients[i], w.clients[k])][i := As(w.clients[i], w.clients[k]).(nick := "", toErase := true)]
      == w.clients[i := As(w.clients[i], w.clients[k]).(nick := "", toErase := true)];
  }

  /** What a request for the nick of the client at `k` does: nothing from another address or
      when that client is active; it restores the one that asks when that client has been
      pinged; and it hands over the identity when that client is disconnected or ready. */
  lemma UsedNickExactly(w: World, i: nat, k: nat)
    requires WorldOk(w) && i < |w.clients| && k < |w.clients| && Alive(w.clients[i]) && 3 <= |w.clients[k].nick| <= 20
    ensures var c, o := w.clients[i], w.clients[k]; var rq := Connect(o.nick);
      && Defined(w, i, rq) && Accepted(w, i, rq)
      && Handle(w, i, rq) ==
           if o.ip != c.ip || o.state in {Waiting, PlayingOnTurn, PlayingOnStand} then w
           else if o.state in {Pinged, Lost} then w.(clients := w.clients[i := Again(c)])
           else if i == k then w.(clients := w.clients[i := As(c, o).(nick := "", toErase := true)])
           else w.(clients := w.clients[i := As(c, o)][k := o.(nick := "", toErase := true)])
  {
    hide WorldOk, TakeOver, ConnectDefined, As;
    ConnectAccepted(w, i, w.clients[k].nick);
    OwnerFound(w, i, k);
    HandedOver(w, i, k);
    ReconnectLookups(w, i, k);
  }
}
