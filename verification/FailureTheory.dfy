/** How a silent client is found out and removed, and why an answering one is not. */
module FailureTheory {
  import opened Rules
  import opened RulesTheory
  import opened MoveText
  import opened Session
  import opened Protocol
  import opened Abstraction
  import opened SessionTheory
  import opened RequestTheory
  import opened Codec
  import opened Passes
  import opened RunTheory
  import opened AlwaysTheory

  /** Answering a ping gives back the client as it was; no mark is left. */
  lemma PongUndoesPing(c: ClientRec)
    requires !Transient(c.state) && !Useless(c)
    ensures Restored(Pinging(c)) == c.(stateLast := c.state)
  {
  }

  // ----- The client that is watched

  /** How a client can be reached: it has answered, it was pinged, it is lost, it is cut off. */
  datatype Link = Online | Asked | Missing | Cut

  function LinkOf(s: State): Link {
    match s
    case Pinged => Asked
    case Lost => Missing
    case Disconnected => Cut
    case _ => Online
  }

  /** Everything about a client's connection. */
  datatype Vital = Vital(link: Link, pings: int, sock: int, toDisconnect: bool, toErase: bool)

  function VitalOf(c: ClientRec): Vital {
    Vital(LinkOf(c.state), c.pings, c.sock, c.toDisconnect, c.toErase)
  }

  function Position(w: World, n: string): nat {
    FindNick(w.clients, n)
  }

  ghost predicate Known(w: World, n: string, v: Vital) {
    n != "" && HasNick(w, n) && VitalOf(w.clients[Position(w, n)]) == v
  }

  /** The step does nothing to the client named `n` that the client does not do itself: it is
      not evicted, its connection is not closed unless it was marked for that, nobody takes
      over or newly takes its name, and its opponent moves only on its own turn.  The client
      itself may send whatever it likes, but does not take another name. */
  predicate Spares(w: World, s: Step, n: string) {
    match s
    case DoEvict(i) => i < |w.clients| ==> w.clients[i].nick != n
    case DoClose(i) => i < |w.clients| && w.clients[i].nick == n ==> w.clients[i].toDisconnect
    case DoServe(i, rq) =>
      i < |w.clients| ==>
        if w.clients[i].nick == n then rq.Connect? ==> !TakesOver(w, i, rq.nick)
        else
          && (rq.Move? && Seated(w, w.clients[i]) && OpponentOf(w, w.clients[i]) == n ==> Logical(w.clients[i]) == PlayingOnTurn)
          && (rq.Connect? && rq.nick == n ==> HasNick(w, n) && !TakesOver(w, i, n))
    case _ => true
  }

  predicate TakesOver(w: World, i: nat, n: string)
    requires i < |w.clients|
  {
    var k := FindNickAndIp(w.clients, n, w.clients[i].ip);
    k < |w.clients| && w.clients[k].state == Disconnected
  }

  ghost predicate AllSpare(w: World, ss: seq<Step>, n: string)
    decreases |ss|
  {
    ss == [] || (Spares(w, ss[0], n) && (StepDefined(w, ss[0]) ==> AllSpare(Apply(w, ss[0]), ss[1..], n)))
  }

  // ----- Answering

  /** The request shows that the client is there: afterwards it is neither pinged nor lost. */
  ghost predicate Restores(w: World, i: nat, rq: Request)
    requires i < |w.clients| && WellFormed(rq)
  {
    var c := w.clients[i];
    Routed(c.state, rq) &&
      match rq
      case Ping => true
      case Pong => true
      case GetReady => true
      case Move(coords) =>
        Logical(c) == PlayingOnTurn && Seated(w, c) && Legal(RoomGame(w, c.room), MoveOf(coords))
      case Connect(nick) =>
        var k := FindNickAndIp(w.clients, nick, c.ip);
        HasNick(w, nick) && k < |w.clients| && w.clients[k].state in {Pinged, Lost}
      case _ => false
  }

  ghost predicate Answers(w: World, s: Step, n: string) {
    s.DoServe? && s.i < |w.clients| && w.clients[s.i].nick == n && WellFormed(s.rq) && Restores(w, s.i, s.rq)
  }

  /** Among the steps is one in which `n` answers. */
  ghost predicate Answered(w: World, ss: seq<Step>, n: string)
    decreases |ss|
  {
    ss != [] && (Answers(w, ss[0], n) || (StepDefined(w, ss[0]) && Answered(Apply(w, ss[0]), ss[1..], n)))
  }

  lemma AnsweredThen(w: World, s: Step, ss: seq<Step>, n: string)
    requires StepDefined(w, s)
    ensures Answered(w, [s] + ss, n) <==> Answers(w, s, n) || Answered(Apply(w, s), ss, n)
  {
    assert ([s] + ss)[1..] == ss;
  }

  lemma {:induction false} AnsweredAppend(w: World, a: seq<Step>, b: seq<Step>, n: string)
    requires Exec(w, a).Some?
    ensures Answered(w, a + b, n) <==> Answered(w, a, n) || Answered(Exec(w, a).value, b, n)
    decreases |a|
  {
    if a == [] {
      assert a + b == b;
    } else {
      assert (a + b)[1..] == a[1..] + b;
      AnsweredAppend(Apply(w, a[0]), a[1..], b, n);
    }
  }

  lemma {:induction false} NobodyServed(w: World, ss: seq<Step>, n: string)
    requires forall k :: 0 <= k < |ss| ==> !ss[k].DoServe?
    ensures !Answered(w, ss, n)
    decreases |ss|
  {
    if ss != [] && StepDefined(w, ss[0]) {
      NobodyServed(Apply(w, ss[0]), ss[1..], n);
    }
  }

  function Answering(v: Vital, answered: bool): Vital {
    if answered then v.(link := Online) else v
  }

  // ----- What other clients cannot change

  /** The client at position `i` keeps its nick and everything about its connection. */
  predicate KeptAt(cs: seq<ClientRec>, cs': seq<ClientRec>, i: nat) {
    |cs'| == |cs| && i < |cs| && cs'[i].nick == cs[i].nick && VitalOf(cs'[i]) == VitalOf(cs[i])
  }

  lemma DestroyKeeps(w: World, id: int, a: nat, b: nat, i: nat)
    requires a < |w.clients| && b < |w.clients| && i < |w.clients|
    ensures KeptAt(w.clients, DestroyRoom(w, id, a, b).clients, i)
  {
  }

  lemma FollowKeeps(w: World, id: int, i: nat)
    requires HasRoom(w, id) && HasNick(w, RoomGame(w, id).onTurn) && HasNick(w, RoomGame(w, id).onStand)
    requires i < |w.clients| && i != FindNick(w.clients, RoomGame(w, id).onStand)
    ensures KeptAt(w.clients, FollowGame(w, id).clients, i)
  {
    var g := RoomGame(w, id);
    var a, b := FindNick(w.clients, g.onTurn), FindNick(w.clients, g.onStand);
    var w' := TurnTo(w, a, b);
    assert KeptAt(w.clients, w'.clients, i);
    DestroyKeeps(w', id, a, b, i);
  }

  lemma MoveSpares(w: World, j: nat, coords: string, i: nat)
    requires WorldOk(w) && j < |w.clients| && i < |w.clients| && i != j && IsMoveText(coords)
    requires w.clients[j].nick != "" && Playing(Logical(w.clients[j])) && MoveDefined(w, j, coords)
    requires OpponentOf(w, w.clients[j]) == w.clients[i].nick ==> Logical(w.clients[j]) == PlayingOnTurn
    ensures KeptAt(w.clients, Moved(w, j, coords).clients, i)
  {
    ModeFits(w, j);
    AtTable(w, j);
    FindOwn(w.clients, j);
    var id := w.clients[j].room;
    var g := RoomGame(w, id);
    if Legal(g, MoveOf(coords)) {
      PlayerSwap(g, MoveOf(coords));
      hide Play, Legal, WorldOk, FollowGame, KeptAt, MoveOf;
      FollowKeeps(WithGame(w, id, Play(g, MoveOf(coords))), id, i);
    }
  }

  lemma ConnectSpares(w: World, j: nat, nick: string, i: nat)
    requires WorldOk(w) && j < |w.clients| && i < |w.clients| && i != j && nick != ""
    requires Alive(w.clients[j]) && ConnectSafe(w, j, nick) && w.clients[i].nick != ""
    requires nick == w.clients[i].nick ==> !TakesOver(w, j, nick)
    ensures KeptAt(w.clients, Connecting(w, j, nick).clients, i)
  {
    var k := FindNickAndIp(w.clients, nick, w.clients[j].ip);
    if HasNick(w, nick) && k < |w.clients| {
      ReconnectLookups(w, j, k);
    }
    hide WorldOk, Connecting, ReconnectDefined;
    OthersUntouched(w, j, nick, i);
  }

  /** Connecting touches the client that asks, and the one that it takes over. */
  lemma OthersUntouched(w: World, j: nat, nick: string, i: nat)
    requires j < |w.clients| && i < |w.clients| && i != j
    requires var k := FindNickAndIp(w.clients, nick, w.clients[j].ip);
      HasNick(w, nick) && k == i ==> w.clients[k].state in {Waiting, PlayingOnTurn, PlayingOnStand, Pinged, Lost}
    ensures |Connecting(w, j, nick).clients| == |w.clients| && Connecting(w, j, nick).clients[i] == w.clients[i]
  {
    hide HasNick;
  }

  lemma ServeSpares(w: World, j: nat, rq: Request, i: nat)
    requires WorldOk(w) && j < |w.clients| && i < |w.clients| && i != j && WellFormed(rq)
    requires Alive(w.clients[j]) && Safe(w, j, rq) && Defined(w, j, rq)
    requires w.clients[i].nick != ""
    requires Spares(w, DoServe(j, rq), w.clients[i].nick)
    ensures KeptAt(w.clients, Handle(w, j, rq).clients, i)
  {
    if Routed(w.clients[j].state, rq) {
      match rq
      case Connect(nick) => ConnectSpares(w, j, nick, i);
      case Move(coords) =>
        assert ClientOk(w.clients[j]);
        MoveSpares(w, j, coords, i);
      case Leave => DestroyKeeps(w, w.clients[j].room, j, FindNick(w.clients, OpponentOf(w, w.clients[j])), i);
      case _ =>
    }
  }

  lemma KeptKnown(w: World, w': World, n: string, v: Vital)
    requires Known(w, n, v) && NicksDistinct(w'.clients) && KeptAt(w.clients, w'.clients, Position(w, n))
    ensures Known(w', n, v) && Position(w', n) == Position(w, n)
  {
    FindOwn(w'.clients, Position(w, n));
  }

  lemma DroppedKnown(w: World, i: nat, n: string, v: Vital)
    requires Known(w, n, v) && NicksDistinct(w.clients) && i < |w.clients| && i != Position(w, n)
    ensures Known(Dropped(w, i), n, v)
    ensures Position(Dropped(w, i), n) == if i < Position(w, n) then Position(w, n) - 1 else Position(w, n)
  {
    var p := Position(w, n);
    DropPlayers(w.clients, i);
    FindOwn(Dropped(w, i).clients, if i < p then p - 1 else p);
  }

  lemma DestroyedKnown(w: World, id: int, i: nat, j: nat, n: string, v: Vital)
    requires Sound(w) && Known(w, n, v) && id != 0 && SeatedAt(w, id, i, j)
    requires w.clients[i].nick != "" && w.clients[j].nick != ""
    ensures var w1 := DestroyRoom(w, id, i, j);
      NicksDistinct(w1.clients) && |w1.clients| == |w.clients| && Known(w1, n, v) && Position(w1, n) == Position(w, n)
  {
    DestroyEnds(w, id, i, j);
    DestroyKeeps(w, id, i, j, Position(w, n));
    hide DestroyRoom, Consistent, View, Ends, ClientsOk;
    KeptKnown(w, DestroyRoom(w, id, i, j), n, v);
  }

  lemma InOrderSound(w: World)
    requires WorldOk(w)
    ensures Sound(w) && NicksDistinct(w.clients)
  {
  }

  lemma LeavesTable(w: World, i: nat)
    requires WorldOk(w) && i < |w.clients| && LeavesGame(w.clients[i]) && EraseDefined(w, i)
    ensures var c := w.clients[i]; var j := FindNick(w.clients, OpponentOf(w, c));
      && j < |w.clients| && c.room != 0 && c.nick != "" && w.clients[j].nick != "" && SeatedAt(w, c.room, i, j)
      && Erase(w, i) == Dropped(DestroyRoom(w, c.room, i, j), i)
  {
    AtTable(w, i);
    hide WorldOk, DestroyRoom;
  }

  /** Erasing another client. */
  lemma EraseOther(w: World, i: nat, n: string, v: Vital)
    requires WorldOk(w) && Known(w, n, v) && i < |w.clients| && i != Position(w, n)
    requires EraseDefined(w, i)
    ensures Known(Erase(w, i), n, v)
    ensures Position(Erase(w, i), n) == if i < Position(w, n) then Position(w, n) - 1 else Position(w, n)
  {
    var c := w.clients[i];
    if LeavesGame(c) {
      var j := FindNick(w.clients, OpponentOf(w, c));
      LeavesTable(w, i);
      InOrderSound(w);
      hide Known, DestroyRoom, Position, WorldOk, Sound, Erase, EraseDefined, SeatedAt, Dropped, OpponentOf;
      DestroyedKnown(w, c.room, i, j, n, v);
      DroppedKnown(DestroyRoom(w, c.room, i, j), i, n, v);
    } else {
      assert Erase(w, i) == Dropped(w, i);
      InOrderSound(w);
      hide Known, Erase, Position, WorldOk, Sound;
      DroppedKnown(w, i, n, v);
    }
  }

  // ----- One pass

  lemma CloseOther(w: World, i: nat, n: string, v: Vital)
    requires WorldOk(w) && Known(w, n, v) && i < |w.clients| && i != Position(w, n)
    ensures Known(Close(w, i), n, v) && Position(Close(w, i), n) == Position(w, n)
    ensures Known(Unflag(Close(w, i), i), n, v) && Position(Unflag(Close(w, i), i), n) == Position(w, n)
  {
    CloseHidden(w, i);
    KeptKnown(w, Close(w, i), n, v);
    UnflagHidden(Close(w, i), i);
    KeptKnown(Close(w, i), Unflag(Close(w, i), i), n, v);
  }

  lemma ServeKnown(w: World, j: nat, rq: Request, n: string, v: Vital)
    requires WorldOk(w) && Known(w, n, v) && j != Position(w, n)
    requires Scheduled(w, DoServe(j, rq)) && Polite(w, DoServe(j, rq)) && Spares(w, DoServe(j, rq), n)
    ensures Defined(w, j, rq) && WorldOk(Handle(w, j, rq))
    ensures Known(Handle(w, j, rq), n, v) && Position(Handle(w, j, rq), n) == Position(w, n)
  {
    HandleExactly(w, j, rq);
    ServeSpares(w, j, rq, Position(w, n));
    KeptKnown(w, Handle(w, j, rq), n, v);
  }

  /** The client's own move: on its own turn it is there, and a stone moved for the opponent
      leaves it as reachable as before. */
  lemma OwnMove(w: World, p: nat, coords: string, n: string, v: Vital)
    requires WorldOk(w) && Known(w, n, v) && p == Position(w, n) && IsMoveText(coords)
    requires Alive(w.clients[p]) && MoveSafe(w, p, coords) && MoveDefined(w, p, coords)
    ensures var w' := Moved(w, p, coords); var c := w.clients[p];
      && |w'.clients| == |w.clients| && w'.clients[p].nick == n
      && VitalOf(w'.clients[p]) == Answering(v, Logical(c) == PlayingOnTurn && Legal(RoomGame(w, c.room), MoveOf(coords)))
  {
    var c := w.clients[p];
    NoLobbyRoom(w);
    ModeFits(w, p);
    var r, m, s := FindBoard(w, p);
    if Legal(w.rooms[r].game, MoveOf(coords)) {
      hide Legal, Play, WorldOk, Sound, Moved;
      MovedResult(w, p, coords, r, m, s);
      AfterMoveVital(w, r, m, s, Play(w.rooms[r].game, MoveOf(coords)));
    }
  }

  lemma AfterMoveVital(w: World, r: nat, m: nat, s: nat, g: Game)
    requires AtBoard(w, r, m, s) && w.clients[m].state != Disconnected
    ensures var w' := AfterMove(w, r, m, s, g);
      && |w'.clients| == |w.clients|
      && w'.clients[m].nick == w.clients[m].nick && VitalOf(w'.clients[m]) == VitalOf(w.clients[m]).(link := Online)
      && w'.clients[s].nick == w.clients[s].nick && VitalOf(w'.clients[s]) == VitalOf(w.clients[s])
  {
    var c, d := WithState(w.clients[m], PlayingOnStand), WithLogical(w.clients[s], PlayingOnTurn);
    StatesKeepVital(w.clients[m]);
    StatesKeepVital(w.clients[s]);
    StatesKeepVital(c);
    StatesKeepVital(d);
    hide VitalOf, WithLogical, WithState, BackInLobby;
  }

  /** What changes of state in a game leave alone. */
  lemma StatesKeepVital(c: ClientRec)
    ensures WithState(c, PlayingOnStand).nick == c.nick && VitalOf(WithState(c, PlayingOnStand)) == VitalOf(c).(link := Online)
    ensures WithLogical(c, PlayingOnTurn).nick == c.nick && VitalOf(WithLogical(c, PlayingOnTurn)) == VitalOf(c)
    ensures BackInLobby(c).nick == c.nick && VitalOf(BackInLobby(c)) == VitalOf(c)
  {
  }

  lemma OwnConnect(w: World, p: nat, nick: string, n: string, v: Vital)
    requires WorldOk(w) && Known(w, n, v) && p == Position(w, n) && nick != ""
    requires Alive(w.clients[p]) && ConnectSafe(w, p, nick) && !TakesOver(w, p, nick)
    ensures var w' := Connecting(w, p, nick); var k := FindNickAndIp(w.clients, nick, w.clients[p].ip);
      && |w'.clients| == |w.clients| && w'.clients[p].nick == n
      && VitalOf(w'.clients[p]) == Answering(v, HasNick(w, nick) && k < |w.clients| && w.clients[k].state in {Pinged, Lost})
  {
    var k := FindNickAndIp(w.clients, nick, w.clients[p].ip);
    assert ClientOk(w.clients[p]);
    if HasNick(w, nick) && k < |w.clients| {
      ReconnectLookups(w, p, k);
    }
  }

  lemma OwnSimple(w: World, p: nat, rq: Request, n: string, v: Vital)
    requires WorldOk(w) && Known(w, n, v) && p == Position(w, n) && Alive(w.clients[p]) && WellFormed(rq) && Defined(w, p, rq)
    requires rq.Ping? || rq.Pong? || rq.GetReady? || rq.Chat? || rq.Unknown?
    ensures var w' := Handle(w, p, rq);
      && |w'.clients| == |w.clients| && w'.clients[p].nick == n
      && VitalOf(w'.clients[p]) == Answering(v, Restores(w, p, rq))
  {
    assert ClientOk(w.clients[p]);
    hide WorldOk;
  }

  lemma OwnRequest(w: World, p: nat, rq: Request, n: string, v: Vital)
    requires WorldOk(w) && Known(w, n, v) && p == Position(w, n) && WellFormed(rq)
    requires Alive(w.clients[p]) && Safe(w, p, rq) && Defined(w, p, rq) && Spares(w, DoServe(p, rq), n)
    ensures var w' := Handle(w, p, rq);
      && |w'.clients| == |w.clients| && w'.clients[p].nick == n
      && VitalOf(w'.clients[p]) == Answering(v, Restores(w, p, rq))
  {
    if rq.Ping? || rq.Pong? || rq.GetReady? || rq.Chat? || rq.Unknown? {
      OwnSimple(w, p, rq, n, v);
    } else if Routed(w.clients[p].state, rq) {
      hide Connecting, Moved, DestroyRoom, Legal, WorldOk;
      match rq
      case Connect(nick) => OwnConnect(w, p, nick, n, v);
      case Move(coords) =>
        NoLobbyRoom(w);
        LeaveExactly(w, p);
        OwnMove(w, p, coords, n, v);
      case Leave => DestroyKeeps(w, w.clients[p].room, p, FindNick(w.clients, OpponentOf(w, w.clients[p])), p);
      case _ =>
    }
  }

  lemma OwnKnown(w: World, p: nat, rq: Request, n: string, v: Vital)
    requires WorldOk(w) && Known(w, n, v) && p == Position(w, n)
    requires Scheduled(w, DoServe(p, rq)) && Polite(w, DoServe(p, rq)) && Spares(w, DoServe(p, rq), n)
    ensures Defined(w, p, rq) && WorldOk(Handle(w, p, rq))
    ensures Known(Handle(w, p, rq), n, Answering(v, Restores(w, p, rq))) && Position(Handle(w, p, rq), n) == p
  {
    HandleExactly(w, p, rq);
    OwnRequest(w, p, rq, n, v);
    FindOwn(Handle(w, p, rq).clients, p);
  }

  /** Serving a client, the one that is watched or another. */
  lemma ServeVital(w: World, j: nat, rq: Request, n: string, v: Vital)
    requires WorldOk(w) && Known(w, n, v)
    requires Scheduled(w, DoServe(j, rq)) && Polite(w, DoServe(j, rq)) && Spares(w, DoServe(j, rq), n)
    ensures Defined(w, j, rq) && WorldOk(Handle(w, j, rq))
    ensures Known(Handle(w, j, rq), n, Answering(v, Answers(w, DoServe(j, rq), n)))
    ensures Position(Handle(w, j, rq), n) == Position(w, n)
    ensures j != Position(w, n) ==> !Answers(w, DoServe(j, rq), n)
  {
    if j == Position(w, n) {
      OwnKnown(w, j, rq, n, v);
    } else {
      ServeKnown(w, j, rq, n, v);
      if w.clients[j].nick == n { FindOwn(w.clients, j); }
    }
  }

  lemma {:induction false} ServesKnown(w: World, j: nat, rqs: seq<Request>, n: string, v: Vital)
    requires WorldOk(w) && Known(w, n, v)
    requires AllScheduled(w, ServeSteps(w, j, rqs)) && AllPolite(w, ServeSteps(w, j, rqs)) && AllSpare(w, ServeSteps(w, j, rqs), n)
    requires Exec(w, ServeSteps(w, j, rqs)).Some?
    ensures var w' := Exec(w, ServeSteps(w, j, rqs)).value;
      && WorldOk(w') && Position(w', n) == Position(w, n)
      && Known(w', n, Answering(v, Answered(w, ServeSteps(w, j, rqs), n)))
    ensures j != Position(w, n) ==> !Answered(w, ServeSteps(w, j, rqs), n)
    decreases |rqs|
  {
    hide WorldOk, Known, Handle, Defined, Safe, Answers, Position, Spares;
    if rqs != [] {
      var ss := ServeSteps(w, j, rqs);
      assert ss[0] == DoServe(j, rqs[0]);
      ServeFirst(w, j, rqs);
      ServeVital(w, j, rqs[0], n, v);
      if Accepted(w, j, rqs[0]) {
        var w1 := Handle(w, j, rqs[0]);
        assert ss[1..] == ServeSteps(w1, j, rqs[1..]);
        ServesKnown(w1, j, rqs[1..], n, Answering(v, Answers(w, ss[0], n)));
        AnsweredThen(w, ss[0], ss[1..], n);
      } else {
        AnsweredThen(w, ss[0], [], n);
      }
    }
  }

  lemma {:induction false} SpareAppend(w: World, a: seq<Step>, b: seq<Step>, n: string)
    ensures AllSpare(w, a + b, n) <==> AllSpare(w, a, n) && (Exec(w, a).Some? ==> AllSpare(Exec(w, a).value, b, n))
    decreases |a|
  {
    if a == [] {
      assert a + b == b;
    } else {
      assert (a + b)[1..] == a[1..] + b;
      if StepDefined(w, a[0]) { SpareAppend(Apply(w, a[0]), a[1..], b, n); }
    }
  }

  // ----- A name that is gone stays gone

  predicate NoneNamed(cs: seq<ClientRec>, n: string) {
    forall k :: 0 <= k < |cs| ==> cs[k].nick != n
  }

  lemma NoneNamedExactly(w: World, n: string)
    ensures NoneNamed(w.clients, n) <==> !HasNick(w, n)
  {
  }

  predicate NoneNamedSince(cs: seq<ClientRec>, cs': seq<ClientRec>, n: string) {
    NoneNamed(cs, n) ==> NoneNamed(cs', n)
  }

  lemma FollowNames(w: World, id: int)
    requires HasRoom(w, id) && HasNick(w, RoomGame(w, id).onTurn) && HasNick(w, RoomGame(w, id).onStand)
    ensures SameNicks(w.clients, FollowGame(w, id).clients)
  {
    hide DestroyRoom;
    var g := RoomGame(w, id);
    var a, b := FindNick(w.clients, g.onTurn), FindNick(w.clients, g.onStand);
    DestroyNames(TurnTo(w, a, b), id, a, b);
  }

  lemma MovedNames(w: World, i: nat, coords: string)
    requires i < |w.clients| && IsMoveText(coords) && MoveDefined(w, i, coords)
    ensures SameNicks(w.clients, Moved(w, i, coords).clients)
  {
    var id := w.clients[i].room;
    var g := RoomGame(w, id);
    if Legal(g, MoveOf(coords)) {
      PlayerSwap(g, MoveOf(coords));
      hide Play, Legal, FollowGame;
      FollowNames(WithGame(w, id, Play(g, MoveOf(coords))), id);
    }
  }

  lemma DestroyNames(w: World, id: int, i: nat, j: nat)
    requires i < |w.clients| && j < |w.clients|
    ensures SameNicks(w.clients, DestroyRoom(w, id, i, j).clients)
  {
  }

  lemma StartNames(w: World, i: nat, j: nat)
    requires i < |w.clients| && j < |w.clients|
    ensures SameNicks(w.clients, StartGame(w, i, j).clients)
  {
  }

  lemma ConnectNames(w: World, i: nat, nick: string, n: string)
    requires i < |w.clients| && nick != n && n != ""
    ensures NoneNamedSince(w.clients, Connecting(w, i, nick).clients, n)
  {
  }

  lemma ServeGone(w: World, i: nat, rq: Request, n: string)
    requires n != "" && NoneNamed(w.clients, n) && StepDefined(w, DoServe(i, rq)) && Spares(w, DoServe(i, rq), n)
    ensures NoneNamed(Handle(w, i, rq).clients, n)
  {
    NoneNamedExactly(w, n);
    hide Connecting, Moved, DestroyRoom;
    if Routed(w.clients[i].state, rq) {
      match rq
      case Connect(nick) => ConnectNames(w, i, nick, n);
      case Move(coords) => MovedNames(w, i, coords);
      case Leave => DestroyNames(w, w.clients[i].room, i, FindNick(w.clients, OpponentOf(w, w.clients[i])));
      case _ =>
    }
  }

  lemma EraseGone(w: World, i: nat, n: string)
    requires NoneNamed(w.clients, n) && i < |w.clients| && EraseDefined(w, i)
    ensures NoneNamed(Erase(w, i).clients, n)
  {
    var c := w.clients[i];
    if LeavesGame(c) {
      DestroyNames(w, c.room, i, FindNick(w.clients, OpponentOf(w, c)));
    }
  }

  lemma StepGone(w: World, s: Step, n: string)
    requires n != "" && NoneNamed(w.clients, n) && StepDefined(w, s) && Spares(w, s, n)
    ensures NoneNamed(Apply(w, s).clients, n)
  {
    hide Erase, StartGame, Handle, Defined, EraseDefined;
    match s
    case DoServe(i, rq) => ServeGone(w, i, rq, n);
    case DoErase(i) => EraseGone(w, i, n);
    case DoStart(i, j) => StartNames(w, i, j);
    case _ =>
  }

  lemma {:induction false} StepsGone(w: World, ss: seq<Step>, n: string)
    requires n != "" && NoneNamed(w.clients, n) && Exec(w, ss).Some? && AllSpare(w, ss, n)
    ensures NoneNamed(Exec(w, ss).value.clients, n)
    decreases |ss|
  {
    hide Apply, StepDefined, Spares;
    if ss != [] {
      StepGone(w, ss[0], n);
      StepsGone(Apply(w, ss[0]), ss[1..], n);
    }
  }

  lemma {:induction false} GoneSilent(w: World, ss: seq<Step>, n: string)
    requires n != "" && NoneNamed(w.clients, n) && AllSpare(w, ss, n)
    ensures !Answered(w, ss, n)
    decreases |ss|
  {
    hide Apply, StepDefined, Spares;
    if ss != [] && StepDefined(w, ss[0]) {
      StepGone(w, ss[0], n);
      GoneSilent(Apply(w, ss[0]), ss[1..], n);
    }
  }

  // ----- What the loop over the clients does to one of them

  /** What is left of a client once the loop has been at it. */
  function AfterVisit(v: Vital, answered: bool): Option<Vital> {
    var v1 := if v.toDisconnect then AfterClose(v) else v;
    if v1.toErase then None else Some(Answering(v1, answered))
  }

  function AfterClose(v: Vital): Vital {
    if v.sock >= 0 then Vital(Cut, v.pings, BAD_SOCKET, false, v.toErase) else v.(toDisconnect := false)
  }

  ghost predicate Becomes(w: World, n: string, r: Option<Vital>) {
    match r
    case None => NoneNamed(w.clients, n)
    case Some(v) => Known(w, n, v)
  }

  predicate Hears(events: map<int, Event>, v: Vital) {
    v.sock >= 0 && EventOf(events, v.sock) != Quiet
  }

  /** What is still to come for `n` when the loop stands at `p`. */
  ghost function ToCome(w: World, p: nat, n: string, v: Vital, answered: bool): Option<Vital> {
    if Position(w, n) < p then Some(v) else AfterVisit(v, answered)
  }

  /** The loop at `p` has this result for `n`, who answers only in its own visit and only if
      there is something to hear. */
  ghost predicate Tracks(w: World, p: nat, ss: seq<Step>, events: map<int, Event>, n: string, v: Vital) {
    && Exec(w, ss).Some?
    && Becomes(Exec(w, ss).value, n, ToCome(w, p, n, v, Answered(w, ss, n)))
    && (Position(w, n) < p || !Hears(events, v) ==> !Answered(w, ss, n))
  }

  // ----- Going through the loop

  /** Steps as the server takes them, with clients that behave and leave `n` alone. */
  ghost predicate Calm(w: World, ss: seq<Step>, n: string) {
    AllScheduled(w, ss) && AllPolite(w, ss) && AllSpare(w, ss, n)
  }

  lemma CalmAppend(w: World, a: seq<Step>, b: seq<Step>, n: string)
    requires WorldOk(w) && Calm(w, a + b, n)
    ensures Calm(w, a, n) && Exec(w, a).Some? && WorldOk(Exec(w, a).value) && Calm(Exec(w, a).value, b, n)
  {
    ScheduledAppend(w, a, b);
    PoliteAppend(w, a, b);
    SpareAppend(w, a, b, n);
    StepsKeep(w, a);
  }

  lemma CalmThen(w: World, s: Step, ss: seq<Step>, n: string)
    requires WorldOk(w) && Calm(w, [s] + ss, n)
    ensures Scheduled(w, s) && Polite(w, s) && Spares(w, s, n)
    ensures StepDefined(w, s) && WorldOk(Apply(w, s)) && Calm(Apply(w, s), ss, n)
  {
    assert ([s] + ss)[1..] == ss;
    StepExactly(w, s);
  }

  lemma {:induction false} LoopTracks(w: World, p: nat, events: map<int, Event>, n: string, v: Vital)
    requires WorldOk(w) && p <= |w.clients| && Calm(w, LoopSteps(w, p, events), n) && Known(w, n, v)
    ensures Tracks(w, p, LoopSteps(w, p, events), events, n, v)
    decreases |w.clients| - p, Flag(p < |w.clients| && w.clients[p].toDisconnect),
      Flag(p < |w.clients| && w.clients[p].sock >= 0)
  {
    if p == |w.clients| {
      LoopDone(w, p, events);
    } else {
      var c := w.clients[p];
      if c.toDisconnect {
        FlaggedTracks(w, p, events, n, v);
      } else if c.toErase {
        ErasedTracks(w, p, events, n, v);
      } else if c.sock < 0 || EventOf(events, c.sock) == Quiet {
        LoopSkipped(w, p, events);
        LoopTracks(w, p + 1, events, n, v);
        hide LoopSteps, WorldOk, Calm, Answered, Exec;
        SkippedTracks(w, p, LoopSteps(w, p, events), events, n, v);
      } else {
        ServedTracks(w, p, events, n, v);
      }
    }
  }

  /** Passing by a client that has nothing to say. */
  lemma SkippedTracks(w: World, p: nat, ss: seq<Step>, events: map<int, Event>, n: string, v: Vital)
    requires Known(w, n, v) && p < |w.clients| && !w.clients[p].toDisconnect && !w.clients[p].toErase
    requires w.clients[p].sock < 0 || EventOf(events, w.clients[p].sock) == Quiet
    requires Tracks(w, p + 1, ss, events, n, v)
    ensures Tracks(w, p, ss, events, n, v)
  {
  }

  lemma FlaggedKnown(w: World, p: nat, n: string, v: Vital)
    requires WorldOk(w) && Known(w, n, v) && p == Position(w, n) && v.toDisconnect
    ensures var w' := Unflag(Close(w, p), p);
      Known(w', n, AfterClose(v)) && Position(w', n) == p
  {
    var c := w.clients[p];
    var c' := (if c.sock < 0 then c else WithState(c, Disconnected).(sock := BAD_SOCKET)).(toDisconnect := false);
    assert Unflag(Close(w, p), p).clients == Put(w, p, c').clients;
    hide Close, Unflag;
    PutKnown(w, p, c', n, v);
  }

  lemma PutKnown(w: World, p: nat, c: ClientRec, n: string, v: Vital)
    requires NicksDistinct(w.clients) && Known(w, n, v) && p == Position(w, n) && c.nick == n
    ensures Known(Put(w, p, c), n, VitalOf(c)) && Position(Put(w, p, c), n) == p
  {
    hide VitalOf;
    FindOwn(Put(w, p, c).clients, p);
  }

  /** A closing that comes first, of the client that is watched or of another. */
  lemma ClosedTracks(w: World, p: nat, ss: seq<Step>, w1: World, ss1: seq<Step>, events: map<int, Event>, n: string, v: Vital, v1: Vital)
    requires Exec(w, ss) == Exec(w1, ss1) && (Answered(w, ss, n) <==> Answered(w1, ss1, n))
    requires Tracks(w1, p, ss1, events, n, v1) && Position(w1, n) == Position(w, n)
    requires v1 == v || (v.toDisconnect && v1 == AfterClose(v) && Position(w, n) == p)
    ensures Tracks(w, p, ss, events, n, v)
  {
    hide Exec, Answered, Becomes, Position;
  }

  lemma {:induction false} FlaggedTracks(w: World, p: nat, events: map<int, Event>, n: string, v: Vital)
    requires WorldOk(w) && p < |w.clients| && w.clients[p].toDisconnect && Calm(w, LoopSteps(w, p, events), n) && Known(w, n, v)
    ensures Tracks(w, p, LoopSteps(w, p, events), events, n, v)
    decreases |w.clients| - p, 1, Flag(w.clients[p].sock >= 0), 0
  {
    StepDefinedWhenOk(w, p);
    var w1 := Close(w, p);
    var w2 := Unflag(w1, p);
    assert |w1.clients| == |w2.clients| == |w.clients| && !w2.clients[p].toDisconnect;
    assert p == Position(w, n) ==> v.toDisconnect;
    hide WorldOk, Calm, LoopSteps, CloseDefined, Exec, Answered, Becomes, Known, Close, Unflag, Position, Tracks, AfterClose;
    FlaggedCalm(w, p, events, n);
    LoopFlagged(w, p, events);
    var v' := if p == Position(w, n) then AfterClose(v) else v;
    if p == Position(w, n) {
      FlaggedKnown(w, p, n, v);
    } else {
      CloseOther(w, p, n, v);
    }
    LoopTracks(w2, p, events, n, v');
    ClosedTracks(w, p, LoopSteps(w, p, events), w2, LoopSteps(w2, p, events), events, n, v, v');
  }

  lemma FlaggedCalm(w: World, p: nat, events: map<int, Event>, n: string)
    requires WorldOk(w) && p < |w.clients| && w.clients[p].toDisconnect && Calm(w, LoopSteps(w, p, events), n)
    ensures var w2 := Unflag(Close(w, p), p);
      && WorldOk(w2) && Calm(w2, LoopSteps(w2, p, events), n) && Exec(w, LoopSteps(w, p, events)).Some?
      && (Answered(w, LoopSteps(w, p, events), n) <==> Answered(w2, LoopSteps(w2, p, events), n))
  {
    StepDefinedWhenOk(w, p);
    var w1 := Close(w, p);
    var w2 := Unflag(w1, p);
    hide WorldOk, Calm, LoopSteps, CloseDefined, Exec, Answered;
    FlaggedSteps(w, p, events);
    CalmThen(w, DoClose(p), [DoUnflag(p)] + LoopSteps(w2, p, events), n);
    CalmThen(w1, DoUnflag(p), LoopSteps(w2, p, events), n);
    CalmRuns(w, LoopSteps(w, p, events), n);
    AnsweredThen(w, DoClose(p), [DoUnflag(p)] + LoopSteps(w2, p, events), n);
    AnsweredThen(w1, DoUnflag(p), LoopSteps(w2, p, events), n);
  }

  lemma CalmRuns(w: World, ss: seq<Step>, n: string)
    requires WorldOk(w) && Calm(w, ss, n)
    ensures Exec(w, ss).Some?
  {
    StepsKeep(w, ss);
  }

  lemma ErasedIsGone(w: World, p: nat, n: string)
    requires WorldOk(w) && n != "" && p == Position(w, n) < |w.clients| && w.clients[p].state == Disconnected
    ensures EraseDefined(w, p) && NoneNamed(Erase(w, p).clients, n)
  {
    EraseKeeps(w, p);
    var w' := Erase(w, p);
    FindPlayer(w'.clients, n);
    NoneNamedExactly(w', n);
  }

  lemma {:induction false} ErasedTracks(w: World, p: nat, events: map<int, Event>, n: string, v: Vital)
    requires WorldOk(w) && p < |w.clients| && !w.clients[p].toDisconnect && w.clients[p].toErase
    requires Calm(w, LoopSteps(w, p, events), n) && Known(w, n, v)
    ensures Tracks(w, p, LoopSteps(w, p, events), events, n, v)
    decreases |w.clients| - p, 0, Flag(w.clients[p].sock >= 0), 0
  {
    ErasedCalm(w, p, events, n);
    var w1, rest := Erase(w, p), LoopSteps(Erase(w, p), p, events);
    assert p == Position(w, n) ==> v.toErase && !v.toDisconnect;
    HasName(w, n, v);
    hide WorldOk, LoopSteps, EraseDefined, Erase, Exec, Answered, Calm, Known, Position;
    LoopErased(w, p, events);
    if p == Position(w, n) {
      ErasedIsGone(w, p, n);
      CalmSpares(w1, rest, n);
      StepsGone(w1, rest, n);
      GoneSilent(w1, rest, n);
    } else {
      EraseOther(w, p, n, v);
      LoopTracks(w1, p, events, n, v);
    }
  }

  lemma ErasedCalm(w: World, p: nat, events: map<int, Event>, n: string)
    requires WorldOk(w) && p < |w.clients| && !w.clients[p].toDisconnect && w.clients[p].toErase
    requires Calm(w, LoopSteps(w, p, events), n)
    ensures w.clients[p].nick == "" || w.clients[p].state == Disconnected
    ensures EraseDefined(w, p) && |Erase(w, p).clients| < |w.clients|
    ensures var w1 := Erase(w, p); var rest := LoopSteps(w1, p, events);
      && WorldOk(w1) && Calm(w1, rest, n) && Exec(w1, rest).Some? && Exec(w, LoopSteps(w, p, events)).Some?
      && (Answered(w, LoopSteps(w, p, events), n) <==> Answered(w1, rest, n))
  {
    MayBeErased(w, p);
    EraseSteps(w, p, events);
    var w1, rest := Erase(w, p), LoopSteps(Erase(w, p), p, events);
    hide WorldOk, LoopSteps, EraseDefined, Erase, Exec, Answered, Calm;
    CalmThen(w, DoErase(p), rest, n);
    CalmRuns(w, LoopSteps(w, p, events), n);
    CalmRuns(w1, rest, n);
    AnsweredThen(w, DoErase(p), rest, n);
  }

  lemma MayBeErased(w: World, p: nat)
    requires WorldOk(w) && p < |w.clients| && w.clients[p].toErase
    ensures EraseDefined(w, p)
  {
    assert ClientOk(w.clients[p]);
    EraseKeeps(w, p);
  }

  lemma CalmSpares(w: World, ss: seq<Step>, n: string)
    requires Calm(w, ss, n)
    ensures AllSpare(w, ss, n)
  {
  }

  lemma MessageTracked(w: World, p: nat, buffer: string, n: string, v: Vital)
    requires WorldOk(w) && Calm(w, MessageSteps(w, p, buffer), n) && Known(w, n, v)
    ensures Exec(w, MessageSteps(w, p, buffer)).Some?
    ensures var w' := Exec(w, MessageSteps(w, p, buffer)).value;
      && WorldOk(w') && Position(w', n) == Position(w, n)
      && Known(w', n, Answering(v, Answered(w, MessageSteps(w, p, buffer), n)))
    ensures p != Position(w, n) ==> !Answered(w, MessageSteps(w, p, buffer), n)
  {
    CalmRuns(w, MessageSteps(w, p, buffer), n);
    if IsValidFormat(buffer) {
      ServesKnown(w, p, Requests(buffer), n, v);
    }
  }

  lemma {:induction false} ServedTracks(w: World, p: nat, events: map<int, Event>, n: string, v: Vital)
    requires WorldOk(w) && Served(w, p) && EventOf(events, w.clients[p].sock) != Quiet
    requires Calm(w, LoopSteps(w, p, events), n) && Known(w, n, v)
    ensures Tracks(w, p, LoopSteps(w, p, events), events, n, v)
    decreases |w.clients| - p, 0, 1, 2
  {
    CalmRuns(w, LoopSteps(w, p, events), n);
    match EventOf(events, w.clients[p].sock)
    case Message(buffer) => MessageLoopTracks(w, p, events, buffer, n, v);
    case Quiet =>
    case Failed => FailedTracks(w, p, events, n, v);
    case Hangup => FailedTracks(w, p, events, n, v);
  }

  lemma {:induction false} FailedTracks(w: World, p: nat, events: map<int, Event>, n: string, v: Vital)
    requires WorldOk(w) && Served(w, p) && EventOf(events, w.clients[p].sock) in {Failed, Hangup}
    requires Calm(w, LoopSteps(w, p, events), n) && Known(w, n, v)
    ensures Tracks(w, p, LoopSteps(w, p, events), events, n, v)
    decreases |w.clients| - p, 0, 1, 1
  {
    assert LoopSteps(w, p, events) == CloseAndGoOn(w, p, events);
    hide WorldOk, Calm, LoopSteps, Tracks;
    CloseTracks(w, p, events, n, v);
  }

  /** The client at `p` is closed although it was not marked: it is not the one watched. */
  lemma ClosedIsOther(w: World, p: nat, events: map<int, Event>, n: string)
    requires WorldOk(w) && p < |w.clients| && !w.clients[p].toDisconnect && w.clients[p].sock >= 0
    requires Calm(w, CloseAndGoOn(w, p, events), n)
    ensures w.clients[p].nick != n
    ensures var w1 := Close(w, p);
      && CloseDefined(w, p) && WorldOk(w1) && Calm(w1, LoopSteps(w1, p, events), n)
      && CloseAndGoOn(w, p, events) == [DoClose(p)] + LoopSteps(w1, p, events)
  {
    StepDefinedWhenOk(w, p);
    assert CloseAndGoOn(w, p, events) == [DoClose(p)] + LoopSteps(Close(w, p), p, events);
    hide WorldOk, Calm, LoopSteps, CloseAndGoOn, CloseDefined, Close;
    CalmThen(w, DoClose(p), LoopSteps(Close(w, p), p, events), n);
  }

  lemma {:induction false} CloseTracks(w: World, p: nat, events: map<int, Event>, n: string, v: Vital)
    requires WorldOk(w) && p < |w.clients| && !w.clients[p].toDisconnect && w.clients[p].sock >= 0
    requires Calm(w, CloseAndGoOn(w, p, events), n) && Known(w, n, v)
    ensures Tracks(w, p, CloseAndGoOn(w, p, events), events, n, v)
    decreases |w.clients| - p, 0, 1, 0
  {
    ClosedIsOther(w, p, events, n);
    var w1 := Close(w, p);
    assert p != Position(w, n) && |w1.clients| == |w.clients| && !w1.clients[p].toDisconnect && w1.clients[p].sock < 0;
    hide WorldOk, Calm, LoopSteps, Exec, Answered, Becomes, CloseAndGoOn, Known, Close, Position, Tracks, CloseDefined;
    AnsweredThen(w, DoClose(p), LoopSteps(w1, p, events), n);
    CalmRuns(w1, LoopSteps(w1, p, events), n);
    CloseRuns(w, p, events);
    CloseOther(w, p, n, v);
    LoopTracks(w1, p, events, n, v);
    ClosedTracks(w, p, CloseAndGoOn(w, p, events), w1, LoopSteps(w1, p, events), events, n, v, v);
  }

  lemma CloseRuns(w: World, p: nat, events: map<int, Event>)
    requires p < |w.clients| && !w.clients[p].toDisconnect && w.clients[p].sock >= 0 && CloseDefined(w, p)
    ensures Exec(w, CloseAndGoOn(w, p, events)) == Exec(Close(w, p), LoopSteps(Close(w, p), p, events))
  {
    hide LoopSteps, Close;
    assert ([DoClose(p)] + LoopSteps(Close(w, p), p, events))[1..] == LoopSteps(Close(w, p), p, events);
  }

  lemma MessageCalm(w: World, p: nat, events: map<int, Event>, buffer: string, n: string)
    requires WorldOk(w) && Served(w, p) && EventOf(events, w.clients[p].sock) == Message(buffer)
    requires Calm(w, LoopSteps(w, p, events), n)
    ensures Calm(w, MessageSteps(w, p, buffer), n) && Exec(w, MessageSteps(w, p, buffer)).Some?
    ensures var w' := Exec(w, MessageSteps(w, p, buffer)).value;
      && SameFlags(w, w') && WorldOk(w')
      && var rest := AfterMessage(w', p, events, MessageAccepted(w, p, buffer));
         LoopSteps(w, p, events) == MessageSteps(w, p, buffer) + rest && Calm(w', rest, n)
  {
    MessageFirst(w, p, events, buffer);
    var ss := MessageSteps(w, p, buffer);
    var rest := LoopSteps(w, p, events)[|ss|..];
    hide WorldOk, LoopSteps, CloseAndGoOn, MessageSteps, MessageAccepted, Exec, Calm;
    assert LoopSteps(w, p, events) == ss + rest;
    CalmAppend(w, ss, rest, n);
    MessageLoopSteps(w, p, events, buffer);
    assert rest == AfterMessage(Exec(w, ss).value, p, events, MessageAccepted(w, p, buffer));
  }

  lemma {:induction false} MessageLoopTracks(w: World, p: nat, events: map<int, Event>, buffer: string, n: string, v: Vital)
    requires WorldOk(w) && Served(w, p) && EventOf(events, w.clients[p].sock) == Message(buffer)
    requires Calm(w, LoopSteps(w, p, events), n) && Known(w, n, v)
    ensures Tracks(w, p, LoopSteps(w, p, events), events, n, v)
    decreases |w.clients| - p, 0, 1, 1
  {
    hide WorldOk, Calm, Exec, Answered, Tracks, LoopSteps, MessageSteps, MessageAccepted, CloseAndGoOn;
    MessageCalm(w, p, events, buffer, n);
    var ss := MessageSteps(w, p, buffer);
    var w' := Exec(w, ss).value;
    MessageTracked(w, p, buffer, n, v);
    var v' := Answering(v, Answered(w, ss, n));
    if MessageAccepted(w, p, buffer) {
      LoopTracks(w', p + 1, events, n, v');
      VisitedTracks(w, p, events, ss, LoopSteps(w', p + 1, events), p + 1, n, v);
    } else {
      CloseTracks(w', p, events, n, v');
      ClosedIsOther(w', p, events, n);
      VisitedTracks(w, p, events, ss, CloseAndGoOn(w', p, events), p, n, v);
    }
  }

  /** A message, and what comes after it. */
  lemma VisitedTracks(w: World, p: nat, events: map<int, Event>, ss: seq<Step>, rest: seq<Step>, q: nat, n: string, v: Vital)
    requires Served(w, p) && EventOf(events, w.clients[p].sock) != Quiet && Known(w, n, v) && Exec(w, ss).Some?
    requires p != Position(w, n) ==> !Answered(w, ss, n)
    requires Position(Exec(w, ss).value, n) == Position(w, n)
    requires q == p + 1 || (q == p && p != Position(w, n))
    requires Tracks(Exec(w, ss).value, q, rest, events, n, Answering(v, Answered(w, ss, n)))
    ensures Tracks(w, p, ss + rest, events, n, v)
  {
    hide Answered, Exec, Becomes, Known;
    AnsweredAppend(w, ss, rest, n);
    ExecAppend(w, ss, rest);
    VisitedVital(w, p, n, v);
  }

  lemma VisitedVital(w: World, p: nat, n: string, v: Vital)
    requires Served(w, p) && Known(w, n, v)
    ensures p == Position(w, n) ==> v.sock == w.clients[p].sock && !v.toDisconnect && !v.toErase
  {
  }

  // ----- A whole pass

  lemma ArrivalKnown(w: World, input: Input, n: string, v: Vital)
    requires WorldOk(w) && Known(w, n, v)
    ensures WorldOk(AfterArrival(w, input)) && Known(AfterArrival(w, input), n, v)
  {
    ArrivalScheduled(w, input);
    FindOwn(AfterArrival(w, input).clients, Position(w, n));
  }

  lemma EvictedIsOther(w: World, max: int, n: string)
    requires |w.clients| == max && max >= 1 && SomeDisconnected(w.clients) && AllSpare(w, CapacitySteps(w, max), n)
    ensures w.clients[Longest(w.clients)].nick != n
  {
    assert Spares(w, CapacitySteps(w, max)[0], n);
  }

  lemma CapacityKnown(w: World, input: Input, max: int, n: string, v: Vital)
    requires WorldOk(w) && |w.clients| < max && Known(w, n, v)
    requires Calm(w, ArrivalSteps(input) + CapacitySteps(AfterArrival(w, input), max), n)
    ensures var ss := ArrivalSteps(input) + CapacitySteps(AfterArrival(w, input), max);
      Exec(w, ss).Some? && WorldOk(Exec(w, ss).value) && Known(Exec(w, ss).value, n, v)
  {
    var a, w1 := ArrivalSteps(input), AfterArrival(w, input);
    var c := CapacitySteps(w1, max);
    ArrivalKnown(w, input, n, v);
    NobodyElse(w, input);
    hide WorldOk, Known, Exec, Calm, CapacitySteps, ArrivalSteps, AfterArrival, SomeDisconnected;
    CalmAppend(w, a, c, n);
    CalmRuns(w, a + c, n);
    ArrivalExec(w, input);
    ExecAppend(w, a, c);
    StaysInOrder(w, a + c, n);
    if |w1.clients| == max {
      if SomeDisconnected(w1.clients) {
        EvictSteps(w1, max);
        EvictKnown(w1, max, n, v);
      } else {
        RefusedIsNewest(w, input, max);
      }
    } else {
      NothingToDo(w1, max);
    }
  }

  lemma StaysInOrder(w: World, ss: seq<Step>, n: string)
    requires WorldOk(w) && Calm(w, ss, n)
    ensures Exec(w, ss).Some? && WorldOk(Exec(w, ss).value)
  {
    StepsKeep(w, ss);
  }

  lemma NobodyElse(w: World, input: Input)
    ensures var w1 := AfterArrival(w, input);
      && |w1.clients| == |w.clients| + (if Arrives(input) then 1 else 0)
      && (SomeDisconnected(w.clients) ==> SomeDisconnected(w1.clients))
  {
    if SomeDisconnected(w.clients) {
      var k :| 0 <= k < |w.clients| && w.clients[k].state == Disconnected;
      assert AfterArrival(w, input).clients[k].state == Disconnected;
    }
  }

  lemma NothingToDo(w: World, max: int)
    requires |w.clients| != max
    ensures Exec(w, CapacitySteps(w, max)) == Some(w)
  {
  }

  lemma EvictKnown(w: World, max: int, n: string, v: Vital)
    requires WorldOk(w) && Known(w, n, v) && |w.clients| == max && max >= 1 && SomeDisconnected(w.clients)
    requires Calm(w, CapacitySteps(w, max), n)
    ensures Known(Dropped(w, Longest(w.clients)), n, v)
  {
    EvictedIsOther(w, max, n);
    DroppedKnown(w, Longest(w.clients), n, v);
  }

  lemma StartKnown(w: World, i: nat, j: nat, n: string, v: Vital)
    requires WorldOk(w) && BothReady(w, i, j) && Known(w, n, v)
    ensures WorldOk(StartGame(w, i, j)) && Known(StartGame(w, i, j), n, v)
  {
    StartResult(w, i, j);
    hide NewGame, StartGame;
    assert KeptAt(w.clients, Started(w, i, j).clients, Position(w, n));
    hide Started, KeptAt, Known, Position;
    StartKeeps(w, i, j);
    KeptKnown(w, StartGame(w, i, j), n, v);
  }

  lemma {:induction false} PairsKnown(w: World, p: nat, n: string, v: Vital)
    requires WorldOk(w) && p <= |w.clients| && Known(w, n, v)
    ensures Exec(w, PairSteps(w, p)).Some? && Known(Exec(w, PairSteps(w, p)).value, n, v)
    decreases |w.clients| - p
  {
    hide WorldOk, Known, PairSteps, NextReady, StartGame;
    var i := NextReady(w.clients, p);
    if i == |w.clients| || NextReady(w.clients, i + 1) == |w.clients| {
      PairStepsNone(w, p);
    } else {
      var j := NextReady(w.clients, i + 1);
      PairFound(w, i, j, p);
      PairsKnownMore(w, p, i, j, n, v);
    }
  }

  lemma {:induction false} PairsKnownMore(w: World, p: nat, i: nat, j: nat, n: string, v: Vital)
    requires WorldOk(w) && p <= |w.clients| && Known(w, n, v) && BothReady(w, i, j)
    requires i == NextReady(w.clients, p) && j == NextReady(w.clients, i + 1)
    ensures Exec(w, PairSteps(w, p)).Some? && Known(Exec(w, PairSteps(w, p)).value, n, v)
    decreases |w.clients| - p, 0
  {
    hide WorldOk, Known, PairSteps, NextReady, StartGame, Exec;
    StartKnown(w, i, j, n, v);
    PairStepsRun(w, p, i, j);
    PairsKnown(StartGame(w, i, j), j + 1, n, v);
  }

  lemma PairsBecome(w: World, n: string, r: Option<Vital>)
    requires WorldOk(w) && n != "" && Becomes(w, n, r)
    requires Calm(w, PairSteps(w, 0), n) && Exec(w, PairSteps(w, 0)).Some?
    ensures Becomes(Exec(w, PairSteps(w, 0)).value, n, r)
  {
    hide PairSteps, WorldOk, Exec;
    match r
    case None => StepsGone(w, PairSteps(w, 0), n);
    case Some(v) => PairsKnown(w, 0, n, v);
  }

  /** The parts of a pass, when the first ones run through. */
  lemma PassSplit(w: World, input: Input, max: int)
    requires var ss := ArrivalSteps(input) + CapacitySteps(AfterArrival(w, input), max);
      Exec(w, ss).Some?
    ensures var ss := ArrivalSteps(input) + CapacitySteps(AfterArrival(w, input), max);
      var w1 := Exec(w, ss).value; var l := LoopSteps(w1, 0, input.events);
      PassSteps(w, input, max) == ss + (if Exec(w1, l).None? then l else l + PairSteps(Exec(w1, l).value, 0))
  {
  }

  lemma CalmLoopAndPairs(w: World, events: map<int, Event>, rest: seq<Step>, n: string)
    requires WorldOk(w) && Calm(w, rest, n)
    requires var l := LoopSteps(w, 0, events);
      rest == if Exec(w, l).None? then l else l + PairSteps(Exec(w, l).value, 0)
    ensures var l := LoopSteps(w, 0, events);
      && Calm(w, l, n) && Exec(w, l).Some? && WorldOk(Exec(w, l).value)
      && Calm(Exec(w, l).value, PairSteps(Exec(w, l).value, 0), n)
      && Exec(w, rest) == Exec(Exec(w, l).value, PairSteps(Exec(w, l).value, 0))
  {
    var l := LoopSteps(w, 0, events);
    var tail := rest[|l|..];
    hide WorldOk, LoopSteps, PairSteps, Exec;
    assert rest == l + tail;
    CalmAppend(w, l, tail, n);
    ExecAppend(w, l, tail);
  }

  lemma CapacitySilent(w: World, input: Input, max: int, n: string)
    requires Exec(w, ArrivalSteps(input) + CapacitySteps(AfterArrival(w, input), max)).Some?
    ensures !Answered(w, ArrivalSteps(input) + CapacitySteps(AfterArrival(w, input), max), n)
  {
    NobodyServed(w, ArrivalSteps(input) + CapacitySteps(AfterArrival(w, input), max), n);
  }

  lemma {:induction false} PairsOnlyStart(w: World, p: nat)
    requires p <= |w.clients|
    ensures forall k :: 0 <= k < |PairSteps(w, p)| ==> PairSteps(w, p)[k].DoStart?
    decreases |w.clients| - p
  {
    hide StartGame, NextReady, PairSteps;
    var i := NextReady(w.clients, p);
    if i == |w.clients| || NextReady(w.clients, i + 1) == |w.clients| {
      PairStepsNone(w, p);
    } else {
      var j := NextReady(w.clients, i + 1);
      PairStepsFirst(w, p, i, j);
      PairsOnlyStart(StartGame(w, i, j), j + 1);
    }
  }

  /** The three parts of a pass that concern `n`: only the loop over the clients can hear it. */
  lemma PassAnswered(w: World, a: seq<Step>, l: seq<Step>, w2: World, n: string)
    requires Exec(w, a).Some? && Exec(Exec(w, a).value, l) == Some(w2) && !Answered(w, a, n)
    ensures Answered(w, a + (l + PairSteps(w2, 0)), n) <==> Answered(Exec(w, a).value, l, n)
  {
    hide PairSteps, Answered, Exec;
    var w1 := Exec(w, a).value;
    AnsweredAppend(w, a, l + PairSteps(w2, 0), n);
    AnsweredAppend(w1, l, PairSteps(w2, 0), n);
    PairsOnlyStart(w2, 0);
    NobodyServed(w2, PairSteps(w2, 0), n);
  }

  /** What an update pass does to a client, while the others behave: whatever requests of its
      own it sends, what counts is whether one of them answers. */
  lemma PassTracks(w: World, input: Input, max: int, n: string, v: Vital)
    requires WorldOk(w) && |w.clients| < max && Known(w, n, v)
    requires AllPolite(w, PassSteps(w, input, max)) && AllSpare(w, PassSteps(w, input, max), n)
    ensures PassDefined(w, input, max) && WorldOk(Pass(w, input, max)) && |Pass(w, input, max).clients| < max
    ensures Becomes(Pass(w, input, max), n, AfterVisit(v, Answered(w, PassSteps(w, input, max), n)))
    ensures !Hears(input.events, v) ==> !Answered(w, PassSteps(w, input, max), n)
  {
    PassKeeps(w, input, max);
    PassResult(w, input, max);
    assert n != "";
    var a := ArrivalSteps(input) + CapacitySteps(AfterArrival(w, input), max);
    var rest := PassSteps(w, input, max)[|a|..];
    assert PassSteps(w, input, max) == a + rest;
    hide WorldOk, LoopSteps, PairSteps, ArrivalSteps, CapacitySteps, Becomes, Known, Exec, Answered, Hears;
    CalmAppend(w, a, rest, n);
    CapacityKnown(w, input, max, n, v);
    CapacitySilent(w, input, max, n);
    PassSplit(w, input, max);
    var w1 := Exec(w, a).value;
    ExecAppend(w, a, rest);
    CalmLoopAndPairs(w1, input.events, rest, n);
    var l := LoopSteps(w1, 0, input.events);
    LoopTracks(w1, 0, input.events, n, v);
    PassAnswered(w, a, l, Exec(w1, l).value, n);
    PairsBecome(Exec(w1, l).value, n, AfterVisit(v, Answered(w1, l, n)));
  }

  // ----- Rounds

  /** What a ping round does to a named client. */
  function PingVital(v: Vital): Vital {
    match v.link
    case Online => v.(link := Asked)
    case Asked => v.(link := Missing)
    case Missing => v.(toDisconnect := true)
    case Cut =>
      var u := v.(pings := v.pings - 1);
      if u.pings == 0 then u.(toErase := true) else u
  }

  lemma PingingVital(c: ClientRec)
    requires c.nick != ""
    ensures Pinging(c).nick == c.nick && VitalOf(Pinging(c)) == PingVital(VitalOf(c))
  {
  }

  lemma RoundKnown(w: World, n: string, v: Vital)
    requires NicksDistinct(w.clients) && NicksDistinct(PingRound(w).clients) && Known(w, n, v)
    ensures Known(PingRound(w), n, PingVital(v))
  {
    hide Pinging, PingVital;
    var p := Position(w, n);
    PingingVital(w.clients[p]);
    assert PingRound(w).clients[p] == Pinging(w.clients[p]);
    FindOwn(PingRound(w).clients, p);
  }

  lemma RoundTracks(w: World, n: string, v: Vital)
    requires WorldOk(w) && Known(w, n, v)
    ensures RoundDefined(w) && WorldOk(PingRound(w)) && Known(PingRound(w), n, PingVital(v))
    ensures |PingRound(w).clients| == |w.clients|
  {
    hide PingVital, Known;
    RoundHidden(w);
    RoundKnown(w, n, v);
  }

  lemma RoundNames(w: World, n: string)
    ensures |PingRound(w).clients| == |w.clients| && (NoneNamed(w.clients, n) ==> NoneNamed(PingRound(w).clients, n))
  {
  }

  // ----- Passes between two ping rounds

  /** Update passes one after the other. */
  function Updates(inputs: seq<Input>): seq<Turn> {
    seq(|inputs|, k requires 0 <= k < |inputs| => UpdateTurn(inputs[k]))
  }

  /** In every pass of the run clients behave, and leave `n` alone. */
  ghost predicate CalmRun(w: World, ts: seq<Turn>, max: int, n: string)
    decreases |ts|
  {
    ts == [] ||
    match ts[0]
    case PingTurn => RoundDefined(w) ==> CalmRun(PingRound(w), ts[1..], max, n)
    case UpdateTurn(input) =>
      && AllPolite(w, PassSteps(w, input, max)) && AllSpare(w, PassSteps(w, input, max), n)
      && (PassDefined(w, input, max) ==> CalmRun(Pass(w, input, max), ts[1..], max, n))
  }

  /** In some pass of the run `n` answers. */
  ghost predicate AnsweredRun(w: World, ts: seq<Turn>, max: int, n: string)
    decreases |ts|
  {
    ts != [] &&
    match ts[0]
    case PingTurn => RoundDefined(w) && AnsweredRun(PingRound(w), ts[1..], max, n)
    case UpdateTurn(input) =>
      || Answered(w, PassSteps(w, input, max), n)
      || (PassDefined(w, input, max) && AnsweredRun(Pass(w, input, max), ts[1..], max, n))
  }

  lemma UpdatesFirst(inputs: seq<Input>)
    requires inputs != []
    ensures Updates(inputs) == [UpdateTurn(inputs[0])] + Updates(inputs[1..])
  {
  }

  lemma FirstUpdate(w: World, input: Input, ts: seq<Turn>, max: int, n: string)
    requires CalmRun(w, [UpdateTurn(input)] + ts, max, n)
    ensures AllPolite(w, PassSteps(w, input, max)) && AllSpare(w, PassSteps(w, input, max), n)
    ensures PassDefined(w, input, max) ==>
      && CalmRun(Pass(w, input, max), ts, max, n)
      && Go(w, [UpdateTurn(input)] + ts, max) == Go(Pass(w, input, max), ts, max)
      && (AnsweredRun(w, [UpdateTurn(input)] + ts, max, n) <==>
            Answered(w, PassSteps(w, input, max), n) || AnsweredRun(Pass(w, input, max), ts, max, n))
  {
    assert ([UpdateTurn(input)] + ts)[1..] == ts;
  }

  lemma FirstPing(w: World, ts: seq<Turn>, max: int, n: string)
    requires CalmRun(w, [PingTurn] + ts, max, n) && RoundDefined(w)
    ensures CalmRun(PingRound(w), ts, max, n)
    ensures Go(w, [PingTurn] + ts, max) == Go(PingRound(w), ts, max)
    ensures AnsweredRun(w, [PingTurn] + ts, max, n) <==> AnsweredRun(PingRound(w), ts, max, n)
  {
    assert ([PingTurn] + ts)[1..] == ts;
  }

  /** A name that is gone stays gone over any number of passes. */
  lemma {:induction false} GoneUpdates(w: World, inputs: seq<Input>, max: int, n: string)
    requires WorldOk(w) && |w.clients| < max && n != "" && NoneNamed(w.clients, n) && CalmRun(w, Updates(inputs), max, n)
    ensures Go(w, Updates(inputs), max).Some? && !AnsweredRun(w, Updates(inputs), max, n)
    ensures var w' := Go(w, Updates(inputs), max).value;
      WorldOk(w') && |w'.clients| < max && NoneNamed(w'.clients, n)
    decreases |inputs|
  {
    hide WorldOk, PassSteps, Pass, PassDefined, NoneNamed, AllPolite, AllSpare, Answered;
    if inputs != [] {
      UpdatesFirst(inputs);
      FirstUpdate(w, inputs[0], Updates(inputs[1..]), max, n);
      PassGone(w, inputs[0], max, n);
      GoneUpdates(Pass(w, inputs[0], max), inputs[1..], max, n);
    }
  }

  lemma PassGone(w: World, input: Input, max: int, n: string)
    requires WorldOk(w) && |w.clients| < max && n != "" && NoneNamed(w.clients, n)
    requires AllPolite(w, PassSteps(w, input, max)) && AllSpare(w, PassSteps(w, input, max), n)
    ensures PassDefined(w, input, max) && !Answered(w, PassSteps(w, input, max), n)
    ensures var w' := Pass(w, input, max);
      WorldOk(w') && |w'.clients| < max && NoneNamed(w'.clients, n)
  {
    hide WorldOk, PassSteps, Exec;
    PassKeeps(w, input, max);
    PassResult(w, input, max);
    StepsGone(w, PassSteps(w, input, max), n);
    GoneSilent(w, PassSteps(w, input, max), n);
  }

  /** After one visit, another one only adds answers. */
  lemma VisitedAgain(v: Vital, first: bool, later: bool)
    requires AfterVisit(v, first).Some?
    ensures AfterVisit(AfterVisit(v, first).value, later) == AfterVisit(v, first || later)
    ensures !AfterVisit(v, first).value.toDisconnect && !AfterVisit(v, first).value.toErase
  {
  }

  /** Nothing comes from the client. */
  predicate Unheard(inputs: seq<Input>, v: Vital) {
    forall k :: 0 <= k < |inputs| ==> !Hears(inputs[k].events, v)
  }

  lemma StillUnheard(inputs: seq<Input>, v: Vital)
    requires inputs != [] && Unheard(inputs, v) && AfterVisit(v, false).Some?
    ensures !Hears(inputs[0].events, v) && Unheard(inputs[1..], AfterVisit(v, false).value)
  {
    forall k | 0 <= k < |inputs[1..]| ensures !Hears(inputs[1..][k].events, AfterVisit(v, false).value) {
      assert !Hears(inputs[k + 1].events, v);
    }
  }

  /** Two or more passes do to a client what one would, had it heard all that they hear. */
  lemma {:induction false} UpdatesTrack(w: World, inputs: seq<Input>, max: int, n: string, v: Vital)
    requires WorldOk(w) && |w.clients| < max && Known(w, n, v) && CalmRun(w, Updates(inputs), max, n) && inputs != []
    ensures Go(w, Updates(inputs), max).Some?
    ensures var w' := Go(w, Updates(inputs), max).value;
      && WorldOk(w') && |w'.clients| < max
      && Becomes(w', n, AfterVisit(v, AnsweredRun(w, Updates(inputs), max, n)))
    ensures Unheard(inputs, v) ==> !AnsweredRun(w, Updates(inputs), max, n)
    decreases |inputs|
  {
    hide WorldOk, PassSteps, Pass, PassDefined, Known, AllPolite, AllSpare, Answered, AfterVisit, NoneNamed;
    var input, rest := inputs[0], inputs[1..];
    UpdatesFirst(inputs);
    FirstUpdate(w, input, Updates(rest), max, n);
    PassTracks(w, input, max, n, v);
    var w1, first := Pass(w, input, max), Answered(w, PassSteps(w, input, max), n);
    HasName(w, n, v);
    if Unheard(inputs, v) { assert !Hears(input.events, v); }
    match AfterVisit(v, first)
    case None =>
      GoneUpdates(w1, rest, max, n);
    case Some(u) =>
      if Unheard(inputs, v) { StillUnheard(inputs, v); }
      if rest == [] {
        NoMoreTurns(w1, max, n);
      } else {
        UpdatesTrack(w1, rest, max, n, u);
        VisitedAgain(v, first, AnsweredRun(w1, Updates(rest), max, n));
      }
  }

  lemma HasName(w: World, n: string, v: Vital)
    requires Known(w, n, v)
    ensures n != ""
  {
  }

  lemma NoMoreTurns(w: World, max: int, n: string)
    ensures Go(w, Updates([]), max) == Some(w) && !AnsweredRun(w, Updates([]), max, n)
  {
  }

  // ----- Rounds: a ping, and passes until the next

  function RoundTurns(inputs: seq<Input>): seq<Turn> {
    [PingTurn] + Updates(inputs)
  }

  function TurnsOf(rounds: seq<seq<Input>>): seq<Turn> {
    if rounds == [] then [] else TurnsOf(rounds[..|rounds| - 1]) + RoundTurns(rounds[|rounds| - 1])
  }

  /** Every round has a pass, and clients behave and leave `n` alone. */
  ghost predicate CalmRounds(w: World, rounds: seq<seq<Input>>, max: int, n: string) {
    (forall k :: 0 <= k < |rounds| ==> rounds[k] != []) && CalmRun(w, TurnsOf(rounds), max, n)
  }

  /** For every round, whether `n` answers in it. */
  ghost function AnswersOf(w: World, rounds: seq<seq<Input>>, max: int, n: string): (bs: seq<bool>)
    ensures |bs| == |rounds|
  {
    if rounds == [] then []
    else
      var front, r := rounds[..|rounds| - 1], Go(w, TurnsOf(rounds[..|rounds| - 1]), max);
      AnswersOf(w, front, max, n) + [r.Some? && AnsweredRun(r.value, RoundTurns(rounds[|rounds| - 1]), max, n)]
  }

  lemma {:induction false} CalmRunAppend(w: World, a: seq<Turn>, b: seq<Turn>, max: int, n: string)
    requires CalmRun(w, a + b, max, n)
    ensures CalmRun(w, a, max, n) && (Go(w, a, max).Some? ==> CalmRun(Go(w, a, max).value, b, max, n))
    ensures Go(w, a + b, max) == if Go(w, a, max).Some? then Go(Go(w, a, max).value, b, max) else None
    decreases |a|
  {
    hide PassSteps, Pass, PassDefined, AllPolite, AllSpare, RoundDefined, PingRound;
    if a == [] {
      assert a + b == b;
    } else {
      assert (a + b)[0] == a[0] && (a + b)[1..] == a[1..] + b;
      match a[0]
      case PingTurn => if RoundDefined(w) { CalmRunAppend(PingRound(w), a[1..], b, max, n); }
      case UpdateTurn(input) => if PassDefined(w, input, max) { CalmRunAppend(Pass(w, input, max), a[1..], b, max, n); }
    }
  }

  /** What becomes of a client, given in which rounds it answers. */
  function Fate(v: Vital, answers: seq<bool>): Option<Vital>
    decreases |answers|
  {
    if answers == [] then Some(v)
    else match Fate(v, answers[..|answers| - 1])
      case None => None
      case Some(u) => AfterVisit(PingVital(u), answers[|answers| - 1])
  }

  lemma OneRound(w: World, inputs: seq<Input>, max: int, n: string, v: Vital)
    requires WorldOk(w) && |w.clients| < max && Known(w, n, v) && CalmRun(w, RoundTurns(inputs), max, n) && inputs != []
    ensures Go(w, RoundTurns(inputs), max).Some?
    ensures var w' := Go(w, RoundTurns(inputs), max).value;
      && WorldOk(w') && |w'.clients| < max
      && Becomes(w', n, AfterVisit(PingVital(v), AnsweredRun(w, RoundTurns(inputs), max, n)))
    ensures Unheard(inputs, PingVital(v)) ==> !AnsweredRun(w, RoundTurns(inputs), max, n)
  {
    hide WorldOk, Known, Becomes, PingRound, PingVital, AfterVisit, CalmRun, Go, AnsweredRun;
    RoundTracks(w, n, v);
    FirstPing(w, Updates(inputs), max, n);
    UpdatesTrack(PingRound(w), inputs, max, n, PingVital(v));
  }

  lemma GoneRound(w: World, inputs: seq<Input>, max: int, n: string)
    requires WorldOk(w) && |w.clients| < max && n != "" && NoneNamed(w.clients, n) && CalmRun(w, RoundTurns(inputs), max, n)
    ensures Go(w, RoundTurns(inputs), max).Some? && !AnsweredRun(w, RoundTurns(inputs), max, n)
    ensures var w' := Go(w, RoundTurns(inputs), max).value;
      WorldOk(w') && |w'.clients| < max && NoneNamed(w'.clients, n)
  {
    hide WorldOk, NoneNamed, PingRound, CalmRun, Go, AnsweredRun, View;
    RoundHidden(w);
    RoundNames(w, n);
    FirstPing(w, Updates(inputs), max, n);
    GoneUpdates(PingRound(w), inputs, max, n);
  }

  /** Over any number of rounds, each a ping and one or more passes, whatever the others do and
      whatever it sends itself, a named client fares as its answers and silences say. */
  lemma {:induction false} RoundsDecide(w: World, rounds: seq<seq<Input>>, max: int, n: string, v: Vital)
    requires WorldOk(w) && |w.clients| < max && Known(w, n, v) && CalmRounds(w, rounds, max, n)
    ensures Go(w, TurnsOf(rounds), max).Some?
    ensures var w' := Go(w, TurnsOf(rounds), max).value;
      WorldOk(w') && |w'.clients| < max && Becomes(w', n, Fate(v, AnswersOf(w, rounds, max, n)))
    decreases |rounds|
  {
    hide WorldOk, CalmRun, Go, AnsweredRun, AfterVisit, PingVital, Known, NoneNamed, RoundTurns;
    if rounds == [] {
      NoRounds(w, max);
    } else {
      var front, last := rounds[..|rounds| - 1], rounds[|rounds| - 1];
      CalmRunAppend(w, TurnsOf(front), RoundTurns(last), max, n);
      RoundsDecide(w, front, max, n, v);
      var w1 := Go(w, TurnsOf(front), max).value;
      var bs := AnswersOf(w, rounds, max, n);
      assert bs[..|bs| - 1] == AnswersOf(w, front, max, n);
      HasName(w, n, v);
      match Fate(v, AnswersOf(w, front, max, n))
      case None => GoneRound(w1, last, max, n);
      case Some(u) => OneRound(w1, last, max, n, u);
    }
  }

  lemma NoRounds(w: World, max: int)
    ensures Go(w, [], max) == Some(w)
  {
  }

  // ----- Never answering, and always

  predicate Healthy(v: Vital) {
    v.link == Online && v.sock >= 0 && v.pings == LONG_PING && !v.toDisconnect && !v.toErase
  }

  /** Pinged, lost, disconnected with two pings left, with one, erased. */
  function Stage(v: Vital, k: nat): Option<Vital> {
    match k
    case 0 => Some(v)
    case 1 => Some(v.(link := Asked))
    case 2 => Some(v.(link := Missing))
    case 3 => Some(Vital(Cut, 2, BAD_SOCKET, false, false))
    case 4 => Some(Vital(Cut, 1, BAD_SOCKET, false, false))
    case _ => None
  }

  predicate Never(answers: seq<bool>) {
    forall k :: 0 <= k < |answers| ==> !answers[k]
  }

  predicate EveryTime(answers: seq<bool>) {
    forall k :: 0 <= k < |answers| ==> answers[k]
  }

  lemma {:induction false} SilentFate(v: Vital, answers: seq<bool>)
    requires Healthy(v) && Never(answers)
    ensures Fate(v, answers) == Stage(v, |answers|)
    decreases |answers|
  {
    if answers != [] {
      SilentFate(v, answers[..|answers| - 1]);
    }
  }

  lemma {:induction false} AnsweringFate(v: Vital, answers: seq<bool>)
    requires Healthy(v) && EveryTime(answers)
    ensures Fate(v, answers) == Some(v)
    decreases |answers|
  {
    if answers != [] {
      AnsweringFate(v, answers[..|answers| - 1]);
    }
  }

  /** Nothing comes from the socket. */
  predicate Silence(rounds: seq<seq<Input>>, sock: int) {
    forall k, l :: 0 <= k < |rounds| && 0 <= l < |rounds[k]| ==> EventOf(rounds[k][l].events, sock) == Quiet
  }

  lemma {:induction false} FateSocket(v: Vital, answers: seq<bool>)
    ensures Fate(v, answers).Some? ==> Fate(v, answers).value.sock == v.sock || Fate(v, answers).value.sock < 0
    decreases |answers|
  {
    if answers != [] {
      FateSocket(v, answers[..|answers| - 1]);
    }
  }

  /** A client from whose socket nothing comes never answers. */
  lemma {:induction false} SilenceIsNever(w: World, rounds: seq<seq<Input>>, max: int, n: string, v: Vital)
    requires WorldOk(w) && |w.clients| < max && Known(w, n, v) && CalmRounds(w, rounds, max, n)
    requires Silence(rounds, v.sock)
    ensures Never(AnswersOf(w, rounds, max, n))
    decreases |rounds|
  {
    hide WorldOk, CalmRun, Go, AnsweredRun, AfterVisit, PingVital, Known, NoneNamed, RoundTurns, Becomes;
    if rounds != [] {
      var front, last := rounds[..|rounds| - 1], rounds[|rounds| - 1];
      CalmRunAppend(w, TurnsOf(front), RoundTurns(last), max, n);
      SilenceIsNever(w, front, max, n, v);
      RoundsDecide(w, front, max, n, v);
      FateSocket(v, AnswersOf(w, front, max, n));
      HasName(w, n, v);
      var w1 := Go(w, TurnsOf(front), max).value;
      match Fate(v, AnswersOf(w, front, max, n))
      case None =>
        BecomesGone(w1, n);
        GoneRound(w1, last, max, n);
      case Some(u) =>
        KnownAsSuch(w1, n, u);
        SocketKept(u);
        forall l | 0 <= l < |last| ensures !Hears(last[l].events, PingVital(u)) {
          assert EventOf(rounds[|rounds| - 1][l].events, v.sock) == Quiet;
        }
        OneRound(w1, last, max, n, u);
    }
  }

  lemma SocketKept(v: Vital)
    ensures PingVital(v).sock == v.sock
  {
  }

  lemma BecomesGone(w: World, n: string)
    requires Becomes(w, n, None)
    ensures NoneNamed(w.clients, n)
  {
  }

  /** A connected, named client that stops answering, whatever else it may send, is pinged,
      then lost, then disconnected, and after exactly five rounds it is erased, and its game
      with it. */
  lemma FiveRounds(w: World, rounds: seq<seq<Input>>, max: int, n: string)
    requires WorldOk(w) && |w.clients| < max && n != "" && HasNick(w, n)
    requires var c := w.clients[Position(w, n)];
      c.sock >= 0 && !Transient(c.state) && !c.toDisconnect
    requires CalmRounds(w, rounds, max, n) && Never(AnswersOf(w, rounds, max, n))
    ensures Go(w, TurnsOf(rounds), max).Some? && WorldOk(Go(w, TurnsOf(rounds), max).value)
    ensures var w' := Go(w, TurnsOf(rounds), max).value; var sock := w.clients[Position(w, n)].sock;
      && (|rounds| == 1 ==> Known(w', n, Vital(Asked, 2, sock, false, false)))
      && (|rounds| == 2 ==> Known(w', n, Vital(Missing, 2, sock, false, false)))
      && (|rounds| == 3 ==> Known(w', n, Vital(Cut, 2, BAD_SOCKET, false, false)))
      && (|rounds| == 4 ==> Known(w', n, Vital(Cut, 1, BAD_SOCKET, false, false)))
      && (|rounds| >= 5 ==> !HasNick(w', n) && forall t :: t in View(w').tables.Values ==> t.onTurn != n && t.onStand != n)
  {
    var v := VitalOf(w.clients[Position(w, n)]);
    HealthyVital(w, n);
    SilentFate(v, AnswersOf(w, rounds, max, n));
    hide Fate, WorldOk, Go, TurnsOf, CalmRounds, Known, View, AnswersOf, Never;
    RoundsDecide(w, rounds, max, n, v);
    if |rounds| >= 5 {
      GoneFromTables(Go(w, TurnsOf(rounds), max).value, n);
    }
  }

  /** A client that answers each ping before the next one, by whatever request, is never lost
      and never flagged. */
  lemma AnsweringIsSafe(w: World, rounds: seq<seq<Input>>, max: int, n: string)
    requires WorldOk(w) && |w.clients| < max && n != "" && HasNick(w, n)
    requires var c := w.clients[Position(w, n)];
      c.sock >= 0 && !Transient(c.state) && !c.toDisconnect
    requires CalmRounds(w, rounds, max, n) && EveryTime(AnswersOf(w, rounds, max, n))
    ensures Go(w, TurnsOf(rounds), max).Some? && WorldOk(Go(w, TurnsOf(rounds), max).value)
    ensures Known(Go(w, TurnsOf(rounds), max).value, n, VitalOf(w.clients[Position(w, n)]))
    ensures Known(PingRound(Go(w, TurnsOf(rounds), max).value), n, VitalOf(w.clients[Position(w, n)]).(link := Asked))
  {
    var v := VitalOf(w.clients[Position(w, n)]);
    HealthyVital(w, n);
    AnsweringFate(v, AnswersOf(w, rounds, max, n));
    hide Fate, WorldOk, Go, TurnsOf, CalmRounds, Known, AnswersOf, EveryTime;
    RoundsDecide(w, rounds, max, n, v);
    KnownAsSuch(Go(w, TurnsOf(rounds), max).value, n, v);
    RoundTracks(Go(w, TurnsOf(rounds), max).value, n, v);
  }

  lemma KnownAsSuch(w: World, n: string, v: Vital)
    requires Becomes(w, n, Some(v))
    ensures Known(w, n, v)
  {
  }

  lemma HealthyVital(w: World, n: string)
    requires WorldOk(w) && n != "" && HasNick(w, n)
    requires var c := w.clients[Position(w, n)];
      c.sock >= 0 && !Transient(c.state) && !c.toDisconnect
    ensures Known(w, n, VitalOf(w.clients[Position(w, n)])) && Healthy(VitalOf(w.clients[Position(w, n)]))
  {
    assert ClientOk(w.clients[Position(w, n)]);
  }

  lemma GoneFromTables(w: World, n: string)
    requires WorldOk(w) && n != "" && NoneNamed(w.clients, n)
    ensures !HasNick(w, n) && forall t :: t in View(w).tables.Values ==> t.onTurn != n && t.onStand != n
  {
    NoneNamedExactly(w, n);
    FindPlayer(w.clients, n);
    forall r | r in View(w).tables ensures View(w).tables[r].onTurn != n && View(w).tables[r].onStand != n {
      assert TableFits(View(w), r);
    }
  }
}
