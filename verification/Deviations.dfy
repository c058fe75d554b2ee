/** Where the server does not do what the protocol promises.  Each case is a run from the empty
    server, turn by turn, as the two threads take it.  In some of them one request or one
    arrival leaves the server in disorder (StrayPong, ReadyWhilePlaying, NameOfAReadyClient,
    EvictedFromAGame) or finds nothing where it looks (LeaveFromTheLobby); in the others it
    stays in order and does the wrong thing (NickOfAPingedClient, MoveOutOfTurn,
    WinningForTheOther).  RequestTheory and RunTheory say exactly when this happens; here are
    runs in which it does.  There is room for two clients, and a third place for the one that
    is told so. */
module Deviations {
  import opened Rules
  import opened RulesTheory
  import opened MoveText
  import opened Session
  import opened Protocol
  import opened Abstraction
  import opened SessionTheory
  import opened RequestTheory
  import opened Codec
  import opened Passes
  import opened RunTheory
  import opened PairTheory
  import opened Scripts
  import opened Duel

  const MAX := 3
  const ANN_IP := "10.0.0.1"
  const BOB_IP := "10.0.0.2"

  ghost predicate Reached(ts: seq<Turn>, w: World) {
    Go(EMPTY_SERVER, ts, MAX) == Some(w) && WorldOk(w)
  }

  function InLobby(nick: string, ip: string, sock: int, mode: State): ClientRec {
    ClientRec(nick, ip, sock, 0, mode, Waiting, LONG_PING, false, false)
  }

  // ----- The messages

  lemma ConnectItem(nick: string)
    requires 3 <= |nick| <= 20 && AllIn(nick, WordChar)
    ensures Asks("c:" + nick, Connect(nick))
  {
    TaggedItem("c", nick, Tagged("c:", WordChar, 3, 20));
  }

  lemma MoveItem(coords: string)
    requires IsMoveText(coords)
    ensures Asks("m:" + coords, Move(coords))
  {
    DigitsOnly(coords);
    TaggedItem("m", coords, Tagged("m:", DigitChar, 8, 8));
  }

  // ----- Turns of clients who behave

  lemma ThenComes(ts: seq<Turn>, w: World, ip: string, sock: int, w': World)
    requires Reached(ts, w) && sock > 0 && |w.clients| + 1 != MAX && Clear(w, 0) && FewReady(w.clients)
    requires w' == Accept(w, ip, sock)
    ensures Reached(ts + [Comes(ip, sock)], w')
  {
    assert w'.rooms == w.rooms;
    AcceptHidden(w, ip, sock);
    hide Accept, Go, Sound;
    ArrivalTurn(w, ip, sock, MAX);
    GoOn(EMPTY_SERVER, ts, Comes(ip, sock), w, Some(w'), MAX);
  }

  lemma ThenSays(ts: seq<Turn>, w: World, i: nat, sock: int, item: string, rq: Request, w': World)
    requires Go(EMPTY_SERVER, ts, MAX) == Some(w) && MayAsk(w, i, sock, MAX) && Asks(item, rq) && LeadsTo(w, i, rq, w') && FewReady(w'.clients)
    ensures Go(EMPTY_SERVER, ts + [Says(sock, item)], MAX) == Some(w')
  {
    hide Asks, Go, LeadsTo, MayAsk, FewReady;
    MessageTurn(w, i, sock, item, rq, w', MAX);
    NobodyPaired(w');
    GoOn(EMPTY_SERVER, ts, Says(sock, item), w, Some(w'), MAX);
  }

  lemma Kept(w: World, i: nat, rq: Request, w': World)
    requires WorldOk(w) && LeadsTo(w, i, rq, w') && Alive(w.clients[i])
    ensures WorldOk(w') <==> Safe(w, i, rq)
  {
    hide WorldOk, Handle, Safe, Accepted, Defined, Clear;
    HandleExactly(w, i, rq);
  }

  /** The message is handled, and its request is safe. */
  lemma ThenSafely(ts: seq<Turn>, w: World, i: nat, sock: int, item: string, rq: Request, w': World)
    requires Reached(ts, w) && MayAsk(w, i, sock, MAX) && Asks(item, rq) && LeadsTo(w, i, rq, w') && Safe(w, i, rq) && FewReady(w'.clients)
    ensures Reached(ts + [Says(sock, item)], w')
  {
    Kept(w, i, rq, w');
    hide WorldOk, Asks, Go, MayAsk, LeadsTo, Safe;
    ThenSays(ts, w, i, sock, item, rq, w');
  }

  /** A client that has just come takes a free name. */
  lemma ThenNames(ts: seq<Turn>, w: World, i: nat, ip: string, sock: int, nick: string, w': World)
    requires Reached(ts, w) && MayAsk(w, i, sock, MAX) && FewReady(w.clients) && sock > 0
    requires w.clients[i] == NewClient(ip, sock) && 3 <= |nick| <= 20 && AllIn(nick, WordChar) && !HasNick(w, nick)
    requires w' == Put(w, i, InLobby(nick, ip, sock, Waiting))
    ensures Reached(ts + [Says(sock, "c:" + nick)], w')
  {
    ConnectItem(nick);
    Naming(w, i, ip, sock, nick);
    assert FewReady(w'.clients);
    hide Reached, HasNick, Asks, LeadsTo, Safe, MayAsk, Put, FewReady;
    ThenSafely(ts, w, i, sock, "c:" + nick, Connect(nick), w');
  }

  lemma Naming(w: World, i: nat, ip: string, sock: int, nick: string)
    requires i < |w.clients| && w.clients[i] == NewClient(ip, sock) && Clear(w, 0) && FewReady(w.clients)
    requires 3 <= |nick| <= 20 && !HasNick(w, nick)
    ensures LeadsTo(w, i, Connect(nick), Put(w, i, InLobby(nick, ip, sock, Waiting))) && Safe(w, i, Connect(nick))
  {
    hide HasNick;
  }

  /** A waiting client gets ready, the only one. */
  lemma ThenReady(ts: seq<Turn>, w: World, i: nat, ip: string, sock: int, nick: string, w': World)
    requires Reached(ts, w) && MayAsk(w, i, sock, MAX) && sock > 0 && w.clients[i] == InLobby(nick, ip, sock, Waiting)
    requires w' == Put(w, i, InLobby(nick, ip, sock, Ready)) && FewReady(w'.clients)
    ensures Reached(ts + [Says(sock, "rd")], w')
  {
    WordItem("rd", GetReady);
    GettingReady(w, i, ip, sock, nick, w');
    hide Reached, Asks, LeadsTo, Safe, MayAsk, Put, FewReady;
    ThenSafely(ts, w, i, sock, "rd", GetReady, w');
  }

  lemma GettingReady(w: World, i: nat, ip: string, sock: int, nick: string, w': World)
    requires i < |w.clients| && w.clients[i] == InLobby(nick, ip, sock, Waiting) && Clear(w, 0)
    requires w' == Put(w, i, InLobby(nick, ip, sock, Ready)) && FewReady(w'.clients)
    ensures LeadsTo(w, i, GetReady, w') && Safe(w, i, GetReady)
  {
  }

  lemma ThenPings(ts: seq<Turn>, w: World, w': World)
    requires Reached(ts, w) && w' == PingRound(w)
    ensures Reached(ts + [PingTurn], w')
  {
    hide WorldOk, Go, PingRound, RoundDefined;
    RoundHidden(w);
    GoOnce(w, PingTurn, MAX);
    GoOn(EMPTY_SERVER, ts, PingTurn, w, Some(w'), MAX);
  }

  // ----- Ann comes in

  const ANN_IN: seq<Turn> := ([] + [Comes(ANN_IP, 4)]) + [Says(4, "c:" + "ann")]

  function AnnIn(mode: State): World {
    World([InLobby("ann", ANN_IP, 4, mode)], [], 0)
  }

  function Somebody(): World {
    World([NewClient(ANN_IP, 4)], [], 0)
  }

  lemma SomebodyCame()
    ensures Reached([] + [Comes(ANN_IP, 4)], Somebody())
  {
    EmptyReached();
    assert Accept(EMPTY_SERVER, ANN_IP, 4) == Somebody();
    hide Reached;
    ThenComes([], EMPTY_SERVER, ANN_IP, 4, Somebody());
  }

  lemma NamingAnn()
    ensures var w := Somebody();
      !HasNick(w, "ann") && Put(w, 0, InLobby("ann", ANN_IP, 4, Waiting)) == AnnIn(Waiting) && MayAsk(w, 0, 4, MAX) && FewReady(w.clients)
  {
  }

  lemma AnnInReached()
    ensures Reached(ANN_IN, AnnIn(Waiting))
  {
    SomebodyCame();
    NamingAnn();
    hide Reached, HasNick, Put, AnnIn, FewReady, MayAsk;
    ThenNames([] + [Comes(ANN_IP, 4)], Somebody(), 0, ANN_IP, 4, "ann", AnnIn(Waiting));
  }

  lemma EmptyReached()
    ensures Reached([], EMPTY_SERVER)
  {
  }

  lemma AnnReadyReached()
    ensures Reached(ANN_IN + [Says(4, "rd")], AnnIn(Ready))
  {
    AnnInReached();
    assert Put(AnnIn(Waiting), 0, InLobby("ann", ANN_IP, 4, Ready)) == AnnIn(Ready);
    hide Reached, Put;
    ThenReady(ANN_IN, AnnIn(Waiting), 0, ANN_IP, 4, "ann", AnnIn(Ready));
  }

  // ----- Ann and Bob play

  const BOTH_IN: seq<Turn> := (ANN_IN + [Comes(BOB_IP, 5)]) + [Says(5, "c:" + "bob")]

  function BothIn(ann: State, bob: State): World {
    World([InLobby("ann", ANN_IP, 4, ann), InLobby("bob", BOB_IP, 5, bob)], [], 0)
  }

  function AnnAndSomebody(): World {
    World([InLobby("ann", ANN_IP, 4, Waiting), NewClient(BOB_IP, 5)], [], 0)
  }

  lemma SomebodyElseCame()
    ensures Reached(ANN_IN + [Comes(BOB_IP, 5)], AnnAndSomebody())
  {
    AnnInReached();
    assert AnnAndSomebody().clients == AnnIn(Waiting).clients + [NewClient(BOB_IP, 5)];
    hide Reached;
    ThenComes(ANN_IN, AnnIn(Waiting), BOB_IP, 5, AnnAndSomebody());
  }

  lemma NamingBob()
    ensures var w := AnnAndSomebody();
      && !HasNick(w, "bob") && Put(w, 1, InLobby("bob", BOB_IP, 5, Waiting)) == BothIn(Waiting, Waiting)
      && MayAsk(w, 1, 5, MAX) && FewReady(w.clients)
  {
  }

  lemma BothInReached()
    ensures Reached(BOTH_IN, BothIn(Waiting, Waiting))
  {
    SomebodyElseCame();
    NamingBob();
    hide Reached, HasNick, Put, BothIn, FewReady, MayAsk;
    ThenNames(ANN_IN + [Comes(BOB_IP, 5)], AnnAndSomebody(), 1, BOB_IP, 5, "bob", BothIn(Waiting, Waiting));
  }

  const STARTED: seq<Turn> := (BOTH_IN + [Says(4, "rd")]) + [Says(5, "rd")]

  /** Their game has just begun, and Ann is on turn. */
  function InPlay(): World {
    World([InGame(InLobby("ann", ANN_IP, 4, Ready), PlayingOnTurn, 1),
           InGame(InLobby("bob", BOB_IP, 5, Ready), PlayingOnStand, 1)], [RoomRec(1, NewGame("ann", "bob"))], 1)
  }

  lemma AnnReadyBobInReached()
    ensures Reached(BOTH_IN + [Says(4, "rd")], BothIn(Ready, Waiting))
  {
    BothInReached();
    assert Put(BothIn(Waiting, Waiting), 0, InLobby("ann", ANN_IP, 4, Ready)) == BothIn(Ready, Waiting);
    hide Reached, Put;
    ThenReady(BOTH_IN, BothIn(Waiting, Waiting), 0, ANN_IP, 4, "ann", BothIn(Ready, Waiting));
  }

  lemma BothReady()
    ensures var w, w' := BothIn(Ready, Waiting), BothIn(Ready, Ready);
      |w.clients| == 2 &&
      LeadsTo(w, 1, GetReady, w') && Safe(w, 1, GetReady) && MayAsk(w, 1, 5, MAX) && Alive(w.clients[1])
  {
    assert Put(BothIn(Ready, Waiting), 1, InLobby("bob", BOB_IP, 5, Ready)) == BothIn(Ready, Ready);
  }

  lemma BothStart()
    ensures var w := BothIn(Ready, Ready);
      && AllPaired(w, ReadyFrom(w.clients, 0)) == InPlay() && (WorldOk(w) ==> WorldOk(InPlay()))
  {
    var w := BothIn(Ready, Ready);
    BothPaired(w);
    hide NewGame, AllPaired, ReadyFrom, WorldOk;
    assert Started(w, 0, 1) == InPlay();
    StartResult(w, 0, 1);
    if WorldOk(w) { StartKeeps(w, 0, 1); }
  }

  /** Six passes after the server is empty two clients who connect, name themselves and get
      ready are playing. */
  lemma InPlayReached()
    ensures Reached(STARTED, InPlay())
  {
    var w, w' := BothIn(Ready, Waiting), BothIn(Ready, Ready);
    AnnReadyBobInReached();
    WordItem("rd", GetReady);
    BothReady();
    BothStart();
    hide WorldOk, BothIn, InPlay, Asks, AllPaired, ReadyFrom, AreReady, Go, LeadsTo, Safe, MayAsk, Alive;
    Kept(w, 1, GetReady, w');
    MessageTurn(w, 1, 5, "rd", GetReady, w', MAX);
    GoOn(EMPTY_SERVER, BOTH_IN + [Says(4, "rd")], Says(5, "rd"), w, Some(InPlay()), MAX);
  }

  // ----- A game is played

  predicate Opposed(ann: ClientRec, bob: ClientRec, g: Game) {
    && ann.nick == "ann" && ann.room == 1 && bob.nick == "bob" && bob.room == 1
    && ((g.onTurn == "ann" && g.onStand == "bob") || (g.onTurn == "bob" && g.onStand == "ann"))
  }

  /** Ann and Bob alone on the server, at the only table there has been. */
  function TwoAt(ann: ClientRec, bob: ClientRec, g: Game): World {
    World([ann, bob], [RoomRec(1, g)], 1)
  }

  lemma TwoAtLookups(ann: ClientRec, bob: ClientRec, g: Game, i: nat)
    requires Opposed(ann, bob, g) && i < 2
    ensures var w := TwoAt(ann, bob, g);
      && |w.clients| == 2 && FindNick(w.clients, "ann") == 0 && FindNick(w.clients, "bob") == 1
      && FindRoom(w.rooms, 1) == 0 && Seated(w, w.clients[i]) && RoomGame(w, 1) == g
      && OpponentOf(w, w.clients[i]) == if i == 0 then "bob" else "ann"
  {
    var w := TwoAt(ann, bob, g);
    assert w.clients[0].nick == "ann" && w.rooms[0].id == 1;
  }

  /** After a move the states follow the turn. */
  function InTurn(c: ClientRec, onTurn: bool): ClientRec {
    if onTurn then WithLogical(c, PlayingOnTurn) else WithState(c, PlayingOnStand)
  }

  lemma MoveAtBoard(ann: ClientRec, bob: ClientRec, g: Game, i: nat, coords: string)
    requires Opposed(ann, bob, g) && i < 2 && IsMoveText(coords) && Legal(g, MoveOf(coords))
    ensures var w := TwoAt(ann, bob, g); var g' := Play(g, MoveOf(coords));
      var ann', bob' := InTurn(ann, g'.onTurn == "ann"), InTurn(bob, g'.onTurn == "bob");
      |w.clients| == 2 && MoveDefined(w, i, coords) && Moved(w, i, coords) ==
        if g'.over then World([WithLogical(ann', Waiting).(room := 0), WithLogical(bob', Waiting).(room := 0)], [], 1)
        else TwoAt(ann', bob', g')
  {
    hide Legal, Play, MoveOf, WithLogical, WithState;
    var w, g' := TwoAt(ann, bob, g), Play(g, MoveOf(coords));
    TwoAtLookups(ann, bob, g, i);
    PlayerSwap(g, MoveOf(coords));
    TwoAtLookups(ann, bob, g', i);
    var w1 := WithGame(w, 1, g');
    assert w1 == TwoAt(ann, bob, g');
  }

  /** A player whose opponent is connected may ask for a legal move when he is on turn, and
      also when he has just been pinged. */
  lemma MoveLeads(ann: ClientRec, bob: ClientRec, g: Game, i: nat, coords: string, w': World)
    requires Opposed(ann, bob, g) && i < 2 && IsMoveText(coords) && Legal(g, MoveOf(coords))
    requires forall c :: c in {ann, bob} ==> Playing(Logical(c)) && c.state != Disconnected
    requires TwoAt(ann, bob, g).clients[i].state in {PlayingOnTurn, Pinged}
    requires MoveDefined(TwoAt(ann, bob, g), i, coords) && Moved(TwoAt(ann, bob, g), i, coords) == w' && Clear(w', i + 1)
    ensures LeadsTo(TwoAt(ann, bob, g), i, Move(coords), w') && Safe(TwoAt(ann, bob, g), i, Move(coords))
  {
    hide Legal, Play, MoveOf, MoveDefined, Moved;
    TwoAtLookups(ann, bob, g, i);
  }

  function PlyText(k: nat): string {
    PrintMove(PlyOf(k))
  }

  lemma PlyTextReads(k: nat)
    ensures IsMoveText(PlyText(k)) && MoveOf(PlyText(k)) == PlyOf(k)
  {
    MoveRoundTrip(PlyOf(k), "00000000");
  }

  /** One of the players after `k` plies; the state before the first is that of a client who
      has been waiting for a game. */
  function PlayerAfter(nick: string, ip: string, sock: int, onTurn: bool, k: nat): ClientRec {
    ClientRec(nick, ip, sock, 1, if onTurn then PlayingOnTurn else PlayingOnStand,
              if k == 0 then Ready else if onTurn then PlayingOnStand else PlayingOnTurn, LONG_PING, false, false)
  }

  /** Ann and Bob have played `k` plies. */
  ghost function AtTable(k: nat): World {
    TwoAt(PlayerAfter("ann", ANN_IP, 4, k % 2 == 0, k), PlayerAfter("bob", BOB_IP, 5, k % 2 == 1, k), Played(k))
  }

  function Plies(k: nat): seq<Turn> {
    if k == 0 then STARTED else Plies(k - 1) + [Says(4 + (k - 1) % 2, "m:" + PlyText(k - 1))]
  }

  lemma NextPly(k: nat)
    requires k < LAST_PLY && IsMoveText(PlyText(k))
    ensures var i, coords := k % 2, PlyText(k);
      && LeadsTo(AtTable(k), i, Move(coords), AtTable(k + 1)) && Safe(AtTable(k), i, Move(coords))
      && MayAsk(AtTable(k), i, 4 + i, MAX) && FewReady(AtTable(k + 1).clients)
  {
    hide Played, PlyOf, PlyText, Legal, Play, MoveOf, MoveDefined, Moved, LeadsTo, Safe;
    PlyTextReads(k);
    LastPlyWins(k);
    PlayedOnTrack(k);
    NextTable(k);
    assert Clear(AtTable(k + 1), 0);
    MoveLeads(AtTable(k).clients[0], AtTable(k).clients[1], Played(k), k % 2, PlyText(k), AtTable(k + 1));
  }

  /** Ply `k`, whoever of the two asks for it. */
  lemma PlyAtBoard(ann: ClientRec, bob: ClientRec, k: nat, i: nat)
    requires k < LAST_PLY && i < 2 && IsMoveText(PlyText(k)) && Opposed(ann, bob, Played(k))
    ensures var w := TwoAt(ann, bob, Played(k));
      && |w.clients| == 2 && MoveDefined(w, i, PlyText(k))
      && Moved(w, i, PlyText(k)) == TwoAt(InTurn(ann, k % 2 == 1), InTurn(bob, k % 2 == 0), Played(k + 1))
  {
    hide Played, PlyOf, PlyText, Legal, Play, MoveOf, MoveDefined, Moved, InTurn;
    PlyTextReads(k);
    LastPlyWins(k);
    PlayedOnTrack(k + 1);
    PlayedNext(k);
    MoveAtBoard(ann, bob, Played(k), i, PlyText(k));
  }

  lemma NextTable(k: nat)
    requires k < LAST_PLY && IsMoveText(PlyText(k))
    ensures var w, i, coords := AtTable(k), k % 2, PlyText(k); MoveDefined(w, i, coords) && Moved(w, i, coords) == AtTable(k + 1)
  {
    hide Played, PlyText, MoveDefined, Moved;
    PlayedOnTrack(k);
    PlyAtBoard(AtTable(k).clients[0], AtTable(k).clients[1], k, k % 2);
  }

  lemma PlayedNext(k: nat)
    ensures Played(k + 1) == Play(Played(k), PlyOf(k))
  {
  }

  /** The whole game but for its last ply is played on the server, and leaves it in order. */
  lemma {:induction false} PliesPlayed(k: nat)
    requires k <= LAST_PLY
    ensures Reached(Plies(k), AtTable(k))
  {
    hide Reached, AtTable, PlyText, MoveOf, LeadsTo, Safe, MayAsk, FewReady, Asks;
    if k == 0 {
      StartedAtTable();
    } else {
      var i, coords := (k - 1) % 2, PlyText(k - 1);
      PliesPlayed(k - 1);
      PlyTextReads(k - 1);
      NextPly(k - 1);
      MoveItem(coords);
      ThenSafely(Plies(k - 1), AtTable(k - 1), i, 4 + i, "m:" + coords, Move(coords), AtTable(k));
    }
  }

  lemma StartedAtTable()
    ensures Reached(STARTED, AtTable(0))
  {
    hide Reached, NewGame;
    InPlayReached();
    assert AtTable(0) == InPlay();
  }

  function PingedPlayer(nick: string, ip: string, sock: int, mode: State): ClientRec {
    ClientRec(nick, ip, sock, 1, Pinged, mode, LONG_PING, false, false)
  }

  /** Both have been pinged after `k` plies, and nobody has answered yet. */
  ghost function TablePinged(k: nat): World {
    TwoAt(PingedPlayer("ann", ANN_IP, 4, if k % 2 == 0 then PlayingOnTurn else PlayingOnStand),
          PingedPlayer("bob", BOB_IP, 5, if k % 2 == 1 then PlayingOnTurn else PlayingOnStand), Played(k))
  }

  lemma TablePingedIs(k: nat)
    ensures PingRound(AtTable(k)) == TablePinged(k)
  {
    hide Played;
  }

  lemma TablePingedReached(k: nat)
    requires k <= LAST_PLY
    ensures Reached(Plies(k) + [PingTurn], TablePinged(k))
  {
    PliesPlayed(k);
    TablePingedIs(k);
    hide AtTable, TablePinged, PingRound, Reached;
    ThenPings(Plies(k), AtTable(k), TablePinged(k));
  }

  // ----- Where it goes wrong

  /** The run ends, and leaves the server in disorder. */
  ghost predicate Breaks(ts: seq<Turn>, w: World) {
    Go(EMPTY_SERVER, ts, MAX) == Some(w) && !WorldOk(w)
  }

  /** The message is handled although its request is not safe. */
  lemma ThenBreaks(ts: seq<Turn>, w: World, i: nat, sock: int, item: string, rq: Request, w': World)
    requires Reached(ts, w) && MayAsk(w, i, sock, MAX) && Asks(item, rq) && LeadsTo(w, i, rq, w') && !Safe(w, i, rq) && FewReady(w'.clients)
    ensures Breaks(ts + [Says(sock, item)], w')
  {
    Kept(w, i, rq, w');
    hide WorldOk, Asks, Go, MayAsk, LeadsTo, Safe;
    ThenSays(ts, w, i, sock, item, rq, w');
  }

  lemma InPlayMayAsk()
    ensures MayAsk(InPlay(), 0, 4, MAX) && MayAsk(InPlay(), 1, 5, MAX) && |InPlay().clients| == 2
    ensures FewReady(InPlay().clients)
  {
    hide NewGame;
  }

  const ANN_PLAYS := ClientRec("ann", ANN_IP, 4, 1, PlayingOnTurn, Ready, LONG_PING, false, false)
  const ANN_PINGED := PingedPlayer("ann", ANN_IP, 4, PlayingOnTurn)

  /** Bob is ready again, in the middle of the game. */
  function BobReady(ann: ClientRec, stateLast: State): World {
    World([ann, ClientRec("bob", BOB_IP, 5, 1, Ready, stateLast, LONG_PING, false, false)], [RoomRec(1, NewGame("ann", "bob"))], 1)
  }

  lemma PongInPlay()
    ensures LeadsTo(InPlay(), 1, Pong, BobReady(ANN_PLAYS, PlayingOnStand)) && !Safe(InPlay(), 1, Pong)
    ensures FewReady(BobReady(ANN_PLAYS, PlayingOnStand).clients)
  {
    hide NewGame;
  }

  /** An answer nobody asked for takes Bob out of the game he is still seated in. */
  lemma StrayPong()
    ensures Breaks(STARTED + [Says(5, "<")], BobReady(ANN_PLAYS, PlayingOnStand))
  {
    InPlayReached();
    InPlayMayAsk();
    PongInPlay();
    WordItem("<", Pong);
    hide Reached, InPlay, BobReady, Asks, Breaks, LeadsTo, Safe, MayAsk, FewReady;
    ThenBreaks(STARTED, InPlay(), 1, 5, "<", Pong, BobReady(ANN_PLAYS, PlayingOnStand));
  }

  lemma ReadyInPlay()
    ensures var w := TablePinged(0);
      LeadsTo(w, 1, GetReady, BobReady(ANN_PINGED, PlayingOnStand)) && !Safe(w, 1, GetReady) && MayAsk(w, 1, 5, MAX)
    ensures FewReady(BobReady(ANN_PINGED, PlayingOnStand).clients)
  {
    assert Played(0) == NewGame("ann", "bob");
    hide NewGame, Played;
  }

  /** While a ping is pending, a player may declare himself ready for another game. */
  lemma ReadyWhilePlaying()
    ensures Breaks((STARTED + [PingTurn]) + [Says(5, "rd")], BobReady(ANN_PINGED, PlayingOnStand))
  {
    TablePingedReached(0);
    assert Plies(0) == STARTED;
    ReadyInPlay();
    WordItem("rd", GetReady);
    hide Reached, TablePinged, BobReady, Asks, Breaks, LeadsTo, Safe, MayAsk, FewReady;
    ThenBreaks(STARTED + [PingTurn], TablePinged(0), 1, 5, "rd", GetReady, BobReady(ANN_PINGED, PlayingOnStand));
  }

  // ----- A second connection from the same address

  /** Ann, and another connection from where she is. */
  function AnnTwice(mode: State): World {
    World([InLobby("ann", ANN_IP, 4, mode), NewClient(ANN_IP, 6)], [], 0)
  }

  lemma AnnTwiceReached(ts: seq<Turn>, mode: State)
    requires Reached(ts, AnnIn(mode))
    ensures Reached(ts + [Comes(ANN_IP, 6)], AnnTwice(mode))
  {
    assert AnnTwice(mode).clients == AnnIn(mode).clients + [NewClient(ANN_IP, 6)];
    hide Reached;
    ThenComes(ts, AnnIn(mode), ANN_IP, 6, AnnTwice(mode));
  }

  /** One is ready and has no name, the other has the name and waits. */
  function NameTaken(): World {
    World([InLobby("", ANN_IP, 4, Ready).(toErase := true), InLobby("ann", ANN_IP, 6, Waiting).(stateLast := New)], [], 0)
  }

  lemma TakingTheName()
    ensures LeadsTo(AnnTwice(Ready), 1, Connect("ann"), NameTaken()) && !Safe(AnnTwice(Ready), 1, Connect("ann"))
    ensures MayAsk(AnnTwice(Ready), 1, 6, MAX) && FewReady(NameTaken().clients)
  {
    var w := AnnTwice(Ready);
    assert w.clients[0].nick == "ann" && w.clients[0].ip == ANN_IP;
    assert FindNick(w.clients, "ann") == 0 && FindNickAndIp(w.clients, "ann", ANN_IP) == 0;
    assert TakeOver(w, 1, 0, "ann").clients == NameTaken().clients;
  }

  /** A second connection from Ann's address may take the name of Ann, who is ready, and
      leaves her waiting for a game without a name. */
  lemma NameOfAReadyClient()
    ensures Breaks(((ANN_IN + [Says(4, "rd")]) + [Comes(ANN_IP, 6)]) + [Says(6, "c:" + "ann")], NameTaken())
  {
    AnnReadyReached();
    AnnTwiceReached(ANN_IN + [Says(4, "rd")], Ready);
    ConnectItem("ann");
    TakingTheName();
    hide Reached, Asks, Breaks, AnnTwice, NameTaken, LeadsTo, Safe, MayAsk, FewReady;
    ThenBreaks((ANN_IN + [Says(4, "rd")]) + [Comes(ANN_IP, 6)], AnnTwice(Ready), 1, 6, "c:" + "ann", Connect("ann"), NameTaken());
  }

  function TwoPinged(): World {
    World([InLobby("ann", ANN_IP, 4, Pinged), NewClient(ANN_IP, 6).(state := Pinged)], [], 0)
  }

  lemma TwoPingedIs()
    ensures PingRound(AnnTwice(Waiting)) == TwoPinged() && MayAsk(TwoPinged(), 1, 6, MAX)
  {
  }

  lemma AskingForAnn()
    ensures var w := TwoPinged(); var w' := Put(w, 1, NewClient(ANN_IP, 6));
      LeadsTo(w, 1, Connect("ann"), w') && Safe(w, 1, Connect("ann")) && FewReady(w'.clients)
  {
    var w := TwoPinged();
    assert w.clients[0].nick == "ann" && w.clients[0].ip == ANN_IP;
    assert FindNick(w.clients, "ann") == 0 && FindNickAndIp(w.clients, "ann", ANN_IP) == 0;
    assert Connecting(w, 1, "ann") == Put(w, 1, NewClient(ANN_IP, 6));
  }

  /** A second connection from Ann's address names Ann, who has been pinged: the new connection
      is given its own state back, and Ann stays pinged. */
  lemma NickOfAPingedClient()
    ensures Reached((ANN_IN + [Comes(ANN_IP, 6)]) + [PingTurn], TwoPinged())
    ensures Reached(((ANN_IN + [Comes(ANN_IP, 6)]) + [PingTurn]) + [Says(6, "c:" + "ann")], Put(TwoPinged(), 1, NewClient(ANN_IP, 6)))
    ensures Put(TwoPinged(), 1, NewClient(ANN_IP, 6)).clients[0] == TwoPinged().clients[0]
  {
    AnnInReached();
    AnnTwiceReached(ANN_IN, Waiting);
    TwoPingedIs();
    AskingForAnn();
    ConnectItem("ann");
    var w' := Put(TwoPinged(), 1, NewClient(ANN_IP, 6));
    hide Reached, Asks, LeadsTo, Safe, AnnTwice, TwoPinged, PingRound, MayAsk, Put, FewReady;
    ThenPings(ANN_IN + [Comes(ANN_IP, 6)], AnnTwice(Waiting), TwoPinged());
    ThenSafely((ANN_IN + [Comes(ANN_IP, 6)]) + [PingTurn], TwoPinged(), 1, 6, "c:" + "ann", Connect("ann"), w');
  }

  // ----- Leaving a game that is not there

  function AnnPinged(): World {
    World([InLobby("ann", ANN_IP, 4, Pinged)], [], 0)
  }

  lemma AnnPingedIs()
    ensures PingRound(AnnIn(Waiting)) == AnnPinged() && MayAsk(AnnPinged(), 0, 4, MAX)
    ensures !StepDefined(AnnPinged(), DoServe(0, Leave))
  {
  }

  /** A client in the lobby who has been pinged may ask to leave a game; the server looks for
      the room and does not find one, and the run does not go on. */
  lemma LeaveFromTheLobby()
    ensures Reached(ANN_IN + [PingTurn], AnnPinged())
    ensures Go(EMPTY_SERVER, (ANN_IN + [PingTurn]) + [Says(4, "l")], MAX) == None
  {
    AnnInReached();
    AnnPingedIs();
    WordItem("l", Leave);
    hide WorldOk, Asks, Go, PingRound, AnnIn, AnnPinged, StepDefined, MayAsk;
    ThenPings(ANN_IN, AnnIn(Waiting), AnnPinged());
    FailingTurn(AnnPinged(), 0, 4, "l", Leave, MAX);
    GoOn(EMPTY_SERVER, ANN_IN + [PingTurn], Says(4, "l"), AnnPinged(), None, MAX);
  }

  // ----- Eviction

  const CAROL_IP := "10.0.0.3"

  lemma AnnHangsUp()
    ensures Reached(STARTED + [HangsUp(4)], Close(InPlay(), 0))
  {
    InPlayReached();
    InPlayMayAsk();
    assert WorldOk(Close(InPlay(), 0)) by {
      CloseHidden(InPlay(), 0);
    }
    CloseHidden(InPlay(), 0);
    hide WorldOk, InPlay, Go, CloseDefined, Close, FewReady;
    HangupTurn(InPlay(), 0, 4, MAX);
    GoOn(EMPTY_SERVER, STARTED, HangsUp(4), InPlay(), Some(Close(InPlay(), 0)), MAX);
  }

  lemma OnlyAnnIsGone()
    ensures var w0 := Close(InPlay(), 0); var w := Accept(w0, CAROL_IP, 7);
      && |w0.clients| == 2 && Clear(w0, 0) && FewReady(w0.clients) && LongestDisconnected(w.clients, 0)
      && w.clients[0].nick != "" && w.clients[0].room == 1 && w.rooms == w0.rooms
  {
    hide NewGame;
  }

  /** Ann's connection fails, and Carol comes.  The server is full, Ann makes room, and Bob is
      left at a table with nobody on turn. */
  lemma EvictedFromAGame()
    ensures var w := Accept(Close(InPlay(), 0), CAROL_IP, 7);
      && |w.clients| == 3 && CapacitySteps(w, MAX) == [DoEvict(0)]
      && Reached(STARTED + [HangsUp(4)], Close(InPlay(), 0))
      && Breaks((STARTED + [HangsUp(4)]) + [Comes(CAROL_IP, 7)], Dropped(w, 0))
  {
    var w0 := Close(InPlay(), 0);
    var w := Accept(w0, CAROL_IP, 7);
    AnnHangsUp();
    OnlyAnnIsGone();
    AcceptHidden(w0, CAROL_IP, 7);
    assert WorldOk(w);
    hide WorldOk, InPlay, Close, Go, LongestDisconnected, CapacitySteps, FewReady;
    EvictExactly(w, 0);
    EvictingTurn(w0, CAROL_IP, 7, MAX, 0);
    GoOn(EMPTY_SERVER, STARTED + [HangsUp(4)], Comes(CAROL_IP, 7), w0, Some(Dropped(w, 0)), MAX);
  }

  // ----- Out of turn

  /** Ply `k` made by the player who is not on turn, whose ping is pending. */
  lemma PlyForTheOther(k: nat, w': World)
    requires k <= LAST_PLY && IsMoveText(PlyText(k)) && FewReady(w'.clients) && Clear(w', 0)
    requires MoveDefined(TablePinged(k), 1 - k % 2, PlyText(k)) && Moved(TablePinged(k), 1 - k % 2, PlyText(k)) == w'
    ensures Logical(TablePinged(k).clients[1 - k % 2]) == PlayingOnStand
    ensures Reached(Plies(k) + [PingTurn], TablePinged(k))
    ensures Reached((Plies(k) + [PingTurn]) + [Says(5 - k % 2, "m:" + PlyText(k))], w')
  {
    hide Reached, TablePinged, PlyText, PlyOf, Played, MoveDefined, Moved, MoveOf, LeadsTo, Safe, MayAsk, FewReady, Clear, Asks, Plies;
    var i, coords := 1 - k % 2, PlyText(k);
    TablePingedReached(k);
    OtherMayMove(k, w');
    MoveItem(coords);
    ThenSafely(Plies(k) + [PingTurn], TablePinged(k), i, 4 + i, "m:" + coords, Move(coords), w');
  }

  lemma OtherMayMove(k: nat, w': World)
    requires k <= LAST_PLY && IsMoveText(PlyText(k)) && Clear(w', 0)
    requires MoveDefined(TablePinged(k), 1 - k % 2, PlyText(k)) && Moved(TablePinged(k), 1 - k % 2, PlyText(k)) == w'
    ensures var i, w, coords := 1 - k % 2, TablePinged(k), PlyText(k);
      && |w.clients| == 2 && Logical(w.clients[i]) == PlayingOnStand
      && LeadsTo(w, i, Move(coords), w') && Safe(w, i, Move(coords)) && MayAsk(w, i, 4 + i, MAX)
  {
    hide Played, PlyOf, PlyText, Legal, Play, MoveOf, MoveDefined, Moved, LeadsTo, Safe;
    PlyTextReads(k);
    LastPlyWins(k);
    PlayedOnTrack(k);
    MoveLeads(TablePinged(k).clients[0], TablePinged(k).clients[1], Played(k), 1 - k % 2, PlyText(k), w');
  }

  /** The one who moved for the other is on turn, and still pinged. */
  ghost function TurnTaken(k: nat): World {
    if k % 2 == 0 then TwoAt(PlayerAfter("ann", ANN_IP, 4, false, k + 1), PingedPlayer("bob", BOB_IP, 5, PlayingOnTurn), Played(k + 1))
    else TwoAt(PingedPlayer("ann", ANN_IP, 4, PlayingOnTurn), PlayerAfter("bob", BOB_IP, 5, false, k + 1), Played(k + 1))
  }

  lemma TakingTheTurn(k: nat)
    requires k < LAST_PLY && IsMoveText(PlyText(k))
    ensures var i, w := 1 - k % 2, TablePinged(k);
      |w.clients| == 2 && MoveDefined(w, i, PlyText(k)) && Moved(w, i, PlyText(k)) == TurnTaken(k)
  {
    hide Played, PlyText, MoveDefined, Moved;
    PlayedOnTrack(k);
    PlyAtBoard(TablePinged(k).clients[0], TablePinged(k).clients[1], k, 1 - k % 2);
  }

  lemma TurnTakenCalm(k: nat)
    ensures FewReady(TurnTaken(k).clients) && Clear(TurnTaken(k), 0) && Logical(TurnTaken(k).clients[1 - k % 2]) == PlayingOnTurn
  {
    hide Played;
  }

  /** While a ping is pending, the player on stand moves one of the other's stones in the
      other's turn.  The move is accepted, and now it is his own turn.  This may happen
      after any number of plies. */
  lemma MoveOutOfTurn(k: nat)
    requires k < LAST_PLY
    ensures Logical(TablePinged(k).clients[1 - k % 2]) == PlayingOnStand && Logical(TurnTaken(k).clients[1 - k % 2]) == PlayingOnTurn
    ensures Reached(Plies(k) + [PingTurn], TablePinged(k))
    ensures Reached((Plies(k) + [PingTurn]) + [Says(5 - k % 2, "m:" + PlyText(k))], TurnTaken(k))
  {
    hide Reached, TablePinged, TurnTaken, PlyText, PlyOf, MoveDefined, Moved, MoveOf, FewReady, Clear, Plies;
    PlyTextReads(k);
    TakingTheTurn(k);
    TurnTakenCalm(k);
    PlyForTheOther(k, TurnTaken(k));
  }

  // ----- Winning for the other

  /** The game is over, and both are in the lobby; Ann is still pinged. */
  function GameWon(): World {
    World([InLobby("ann", ANN_IP, 4, Pinged), InLobby("bob", BOB_IP, 5, Waiting).(stateLast := PlayingOnStand)], [], 1)
  }

  lemma TakingTheWin(k: nat)
    requires k == LAST_PLY && IsMoveText(PlyText(k))
    ensures var w, coords := TablePinged(k), PlyText(k);
      && |w.clients| == 2 && MoveDefined(w, 0, coords) && Moved(w, 0, coords) == GameWon()
      && WinnerTold(w, 0, coords) == 1 && LoserTold(w, 0, coords) == 0
  {
    hide Played, PlyOf, PlyText, Legal, Play, MoveOf, Moved;
    var w, g := TablePinged(k), Played(k);
    PlyTextReads(k);
    LastPlyWins(k);
    PlayedOnTrack(k);
    PlayerSwap(g, PlyOf(k));
    TwoAtLookups(w.clients[0], w.clients[1], g, 0);
    MoveAtBoard(w.clients[0], w.clients[1], g, 0, PlyText(k));
  }

  /** Ann makes Bob's winning move for him, and is told that she has lost. */
  lemma WinningForTheOther(k: nat)
    requires k == LAST_PLY
    ensures Reached(Plies(k) + [PingTurn], TablePinged(k))
    ensures Reached((Plies(k) + [PingTurn]) + [Says(4, "m:" + PlyText(k))], GameWon())
    ensures IsMoveText(PlyText(k)) && MoveDefined(TablePinged(k), 0, PlyText(k))
    ensures WinnerTold(TablePinged(k), 0, PlyText(k)) == 1 && LoserTold(TablePinged(k), 0, PlyText(k)) == 0
  {
    hide Reached, TablePinged, PlyText, PlyOf, MoveDefined, Moved, MoveOf, Plies, WinnerTold, LoserTold, FewReady;
    PlyTextReads(k);
    TakingTheWin(k);
    GameWonCalm();
    PlyForTheOther(k, GameWon());
  }

  lemma GameWonCalm()
    ensures FewReady(GameWon().clients) && Clear(GameWon(), 0)
  {
  }
}
