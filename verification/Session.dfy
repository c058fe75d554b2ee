/** The session protocol as functions on values: what each request, ping, disconnection,
    reconnection and game start does to the clients and the rooms.  The classes that update
    clients in place are proved against these functions. */
module Session {
  import opened Rules
  import opened MoveText

  datatype State = New | Waiting | Ready | PlayingOnTurn | PlayingOnStand | Pinged | Lost | Disconnected

  const LONG_PING := 2
  const BAD_SOCKET := -42

  datatype ClientRec = ClientRec(nick: string, ip: string, sock: int, room: int,
                                 state: State, stateLast: State, pings: int,
                                 toDisconnect: bool, toErase: bool)

  datatype RoomRec = RoomRec(id: int, game: Game)

  datatype World = World(clients: seq<ClientRec>, rooms: seq<RoomRec>, roomsTotal: int)

  // ----- Clients

  predicate Transient(s: State) {
    s == Pinged || s == Lost || s == Disconnected
  }

  predicate Playing(s: State) {
    s == PlayingOnTurn || s == PlayingOnStand
  }

  /** What the client is doing, leaving aside whether it is reachable right now. */
  function Logical(c: ClientRec): State {
    if Transient(c.state) then c.stateLast else c.state
  }

  function NewClient(ip: string, sock: int): ClientRec {
    ClientRec("", ip, sock, 0, New, New, LONG_PING, false, false)
  }

  function WithState(c: ClientRec, s: State): ClientRec {
    c.(state := s, stateLast := if Transient(c.state) then c.stateLast else c.state)
  }

  /** A state change that leaves an unreachable client unreachable. */
  function WithLogical(c: ClientRec, s: State): ClientRec {
    if Transient(c.state) then c.(stateLast := s) else WithState(c, s)
  }

  /** The first client with this nick, or the number of clients. */
  function FindNick(cs: seq<ClientRec>, nick: string): (i: nat)
    ensures i <= |cs| && (i < |cs| ==> cs[i].nick == nick)
    ensures forall k :: 0 <= k < i ==> cs[k].nick != nick
  {
    if cs == [] || cs[0].nick == nick then 0 else 1 + FindNick(cs[1..], nick)
  }

  function FindNickAndIp(cs: seq<ClientRec>, nick: string, ip: string): (i: nat)
    ensures i <= |cs| && (i < |cs| ==> cs[i].nick == nick && cs[i].ip == ip)
    ensures forall k :: 0 <= k < i ==> cs[k].nick != nick || cs[k].ip != ip
  {
    if cs == [] || (cs[0].nick == nick && cs[0].ip == ip) then 0 else 1 + FindNickAndIp(cs[1..], nick, ip)
  }

  predicate HasNick(w: World, nick: string) {
    FindNick(w.clients, nick) < |w.clients|
  }

  function Put(w: World, i: nat, c: ClientRec): World
    requires i < |w.clients|
  {
    w.(clients := w.clients[i := c])
  }

  function Without<T>(s: seq<T>, i: nat): seq<T>
    requires i < |s|
  {
    s[..i] + s[i + 1..]
  }

  // ----- Rooms

  /** The first room with this id, or the number of rooms. */
  function FindRoom(rs: seq<RoomRec>, id: int): (i: nat)
    ensures i <= |rs| && (i < |rs| ==> rs[i].id == id)
    ensures forall k :: 0 <= k < i ==> rs[k].id != id
  {
    if rs == [] || rs[0].id == id then 0 else 1 + FindRoom(rs[1..], id)
  }

  predicate HasRoom(w: World, id: int) {
    FindRoom(w.rooms, id) < |w.rooms|
  }

  function RoomGame(w: World, id: int): Game
    requires HasRoom(w, id)
  {
    w.rooms[FindRoom(w.rooms, id)].game
  }

  function OpponentIn(g: Game, nick: string): string {
    if nick == g.onTurn then g.onStand else g.onTurn
  }

  /** The client's room exists, so its opponent's nick can be looked up. */
  predicate Seated(w: World, c: ClientRec) {
    HasRoom(w, c.room)
  }

  function OpponentOf(w: World, c: ClientRec): string
    requires Seated(w, c)
  {
    OpponentIn(RoomGame(w, c.room), c.nick)
  }

  function CreateRoom(w: World, nick1: string, nick2: string): World {
    w.(rooms := w.rooms + [RoomRec(w.roomsTotal + 1, NewGame(nick1, nick2))], roomsTotal := w.roomsTotal + 1)
  }

  /** Both clients go back to the lobby, and the room disappears; id 0 is the lobby itself. */
  predicate MayDestroy(w: World, id: int) {
    id == 0 || HasRoom(w, id)
  }

  function DestroyRoom(w: World, id: int, i: nat, j: nat): World
    requires i < |w.clients| && j < |w.clients|
  {
    var w1 := Put(w, i, WithLogical(w.clients[i], Waiting));
    var w2 := Put(w1, j, WithLogical(w1.clients[j], Waiting));
    var w3 := if id != 0 && HasRoom(w2, id) then w2.(rooms := Without(w2.rooms, FindRoom(w2.rooms, id))) else w2;
    var w4 := Put(w3, i, w3.clients[i].(room := 0));
    Put(w4, j, w4.clients[j].(room := 0))
  }

  // ----- Connections

  /** The client at `i` is no longer stored. */
  function Dropped(w: World, i: nat): World
    requires i < |w.clients|
  {
    w.(clients := Without(w.clients, i))
  }

  function Accept(w: World, ip: string, sock: int): World {
    w.(clients := w.clients + [NewClient(ip, sock)])
  }

  predicate CloseDefined(w: World, i: nat)
    requires i < |w.clients|
  {
    var c := w.clients[i];
    c.sock >= 0 && Playing(Logical(c)) ==> Seated(w, c)
  }

  function Close(w: World, i: nat): World
    requires i < |w.clients|
  {
    var c := w.clients[i];
    if c.sock < 0 then w else Put(w, i, WithState(c, Disconnected).(sock := BAD_SOCKET))
  }

  function Unflag(w: World, i: nat): World
    requires i < |w.clients|
  {
    Put(w, i, w.clients[i].(toDisconnect := false))
  }

  /** Erasing this client also ends its game. */
  predicate LeavesGame(c: ClientRec) {
    c.nick != "" && c.room != 0 && Playing(c.stateLast)
  }

  predicate EraseDefined(w: World, i: nat)
    requires i < |w.clients|
  {
    var c := w.clients[i];
    LeavesGame(c) ==> Seated(w, c) && HasNick(w, OpponentOf(w, c))
  }

  function Erase(w: World, i: nat): World
    requires i < |w.clients|
  {
    var c := w.clients[i];
    var w' := if LeavesGame(c) && EraseDefined(w, i)
      then DestroyRoom(w, c.room, i, FindNick(w.clients, OpponentOf(w, c))) else w;
    Dropped(w', i)
  }

  /** The first disconnected client among those with the fewest pings left. */
  predicate LongestDisconnected(cs: seq<ClientRec>, i: nat) {
    && i < |cs| && cs[i].state == Disconnected
    && (forall k :: 0 <= k < |cs| && cs[k].state == Disconnected ==> cs[i].pings <= cs[k].pings)
    && (forall k :: 0 <= k < i && cs[k].state == Disconnected ==> cs[i].pings < cs[k].pings)
  }

  predicate SomeDisconnected(cs: seq<ClientRec>) {
    exists i :: 0 <= i < |cs| && cs[i].state == Disconnected
  }

  // ----- Pings

  predicate Useless(c: ClientRec) {
    c.state != New && c.nick == "" && c.sock > 0
  }

  predicate PingDefined(w: World, i: nat)
    requires i < |w.clients|
  {
    var c := w.clients[i];
    !Useless(c) && c.state == Pinged && Playing(c.stateLast) ==> Seated(w, c)
  }

  /** What one ping round does to one client. */
  function Pinging(c: ClientRec): ClientRec {
    if Useless(c) then c.(toDisconnect := true, toErase := true)
    else match c.state
      case Pinged => WithState(c, Lost)
      case Lost => c.(toDisconnect := true)
      case Disconnected =>
        var d := c.(pings := c.pings - 1);
        if d.pings == 0 then d.(toErase := true) else d
      case _ => WithState(c, Pinged)
  }

  function PingOne(w: World, i: nat): World
    requires i < |w.clients|
  {
    Put(w, i, Pinging(w.clients[i]))
  }

  // ----- Requests

  datatype Request = Connect(nick: string) | GetReady | Move(coords: string) | Leave
                   | Ping | Pong | Chat(text: string) | Unknown

  predicate WellFormed(rq: Request) {
    && (rq.Connect? ==> 3 <= |rq.nick| <= 20)
    && (rq.Move? ==> IsMoveText(rq.coords))
  }

  /** The request that keys and values stand for. */
  function RequestOf(q: seq<string>): Request
    requires |q| >= 1
  {
    if q[0] == "c" && |q| >= 2 then Connect(q[1])
    else if q[0] == "rd" then GetReady
    else if q[0] == "m" && |q| >= 2 then Move(q[1])
    else if q[0] == "l" then Leave
    else if q[0] == ">" then Ping
    else if q[0] == "<" then Pong
    else if q[0] == "ch" && |q| >= 2 then Chat(q[1])
    else Unknown
  }

  /** The states in which the router passes a request on. */
  predicate Routed(s: State, rq: Request) {
    match rq
    case Connect(_) => true
    case GetReady => s == Waiting || s == Pinged
    case Move(_) => s == PlayingOnTurn || s == Pinged
    case Leave => s == PlayingOnTurn || s == PlayingOnStand || s == Pinged
    case Ping => true
    case Pong => true
    case Chat(_) => s == PlayingOnTurn || s == PlayingOnStand || s == Pinged
    case Unknown => false
  }

  predicate FreeToName(c: ClientRec) {
    c.stateLast == New && (c.state == New || Transient(c.state))
  }

  /** `i` asks for the nick that the client at `k`, with the same address, already has. */
  predicate ReconnectDefined(w: World, i: nat, k: nat)
    requires i < |w.clients| && k < |w.clients|
  {
    match w.clients[k].state
    case Waiting => true
    case PlayingOnTurn => true
    case PlayingOnStand => true
    case Pinged => w.clients[i].room != 0 ==> Seated(w, w.clients[i])
    case Lost => w.clients[i].room != 0 ==> Seated(w, w.clients[i])
    case _ => w.clients[k].room != 0 ==> HasRoom(w, w.clients[k].room)
  }

  function TakeOver(w: World, i: nat, k: nat, nick: string): World
    requires i < |w.clients| && k < |w.clients|
  {
    var o := w.clients[k];
    var w1 := Put(w, i, WithState(w.clients[i].(nick := nick), o.stateLast).(room := o.room, pings := LONG_PING));
    Put(w1, k, w1.clients[k].(nick := "", toErase := true))
  }

  function Reconnect(w: World, i: nat, k: nat, nick: string): World
    requires i < |w.clients| && k < |w.clients|
  {
    match w.clients[k].state
    case Waiting => w
    case PlayingOnTurn => w
    case PlayingOnStand => w
    case Pinged => Put(w, i, WithState(w.clients[i], w.clients[i].stateLast))
    case Lost => Put(w, i, WithState(w.clients[i], w.clients[i].stateLast))
    case _ => TakeOver(w, i, k, nick)
  }

  /** What a client that connects under a nick in use is told. */
  datatype Reply = NickUsed | LobbyAgain | GameAgain(onTurn: bool, opponent: string, playfield: string)

  function RoomReply(w: World, i: nat): Reply
    requires i < |w.clients| && (w.clients[i].room != 0 ==> Seated(w, w.clients[i]))
  {
    var c := w.clients[i];
    if c.room == 0 then LobbyAgain
    else GameAgain(c.state == PlayingOnTurn, OpponentOf(w, c), PlayfieldText(RoomGame(w, c.room).board))
  }

  predicate Recognised(s: State) {
    s != Waiting && s != PlayingOnTurn && s != PlayingOnStand
  }

  function ReconnectReply(w: World, i: nat, k: nat, nick: string): Reply
    requires i < |w.clients| && k < |w.clients| && ReconnectDefined(w, i, k)
  {
    if Recognised(w.clients[k].state) then
      ReconnectSeated(w, i, k, nick);
      RoomReply(Reconnect(w, i, k, nick), i)
    else NickUsed
  }

  /** The three ways of coming back, and what is said. */
  lemma ReconnectCases(w: World, i: nat, k: nat, nick: string)
    requires i < |w.clients| && k < |w.clients| && ReconnectDefined(w, i, k)
    ensures var s := w.clients[k].state; var w' := Reconnect(w, i, k, nick); var reply := ReconnectReply(w, i, k, nick);
      if s == Waiting || s == PlayingOnTurn || s == PlayingOnStand then w' == w && reply == NickUsed
      else
        && w' == (if s == Pinged || s == Lost then Put(w, i, WithState(w.clients[i], w.clients[i].stateLast)) else TakeOver(w, i, k, nick))
        && |w'.clients| == |w.clients| && (w'.clients[i].room != 0 ==> Seated(w', w'.clients[i]))
        && reply == RoomReply(w', i)
  {
    if Recognised(w.clients[k].state) { ReconnectSeated(w, i, k, nick); }
    hide TakeOver, WithState, RoomReply, Seated;
  }

  lemma ReconnectSeated(w: World, i: nat, k: nat, nick: string)
    requires i < |w.clients| && k < |w.clients| && ReconnectDefined(w, i, k) && Recognised(w.clients[k].state)
    ensures var w' := Reconnect(w, i, k, nick);
      |w'.clients| == |w.clients| && w'.rooms == w.rooms && (w'.clients[i].room != 0 ==> Seated(w', w'.clients[i]))
  {
  }

  function Connecting(w: World, i: nat, nick: string): World
    requires i < |w.clients|
  {
    var c := w.clients[i];
    var k := FindNickAndIp(w.clients, nick, c.ip);
    if !HasNick(w, nick) then
      if FreeToName(c) then Put(w, i, WithState(c.(nick := nick), Waiting).(stateLast := Waiting)) else w
    else if k == |w.clients| then w
    else Reconnect(w, i, k, nick)
  }

  predicate ConnectDefined(w: World, i: nat, nick: string)
    requires i < |w.clients|
  {
    var k := FindNickAndIp(w.clients, nick, w.clients[i].ip);
    HasNick(w, nick) && k < |w.clients| ==> ReconnectDefined(w, i, k)
  }

  ghost predicate MoveDefined(w: World, i: nat, coords: string)
    requires i < |w.clients| && IsMoveText(coords)
  {
    && Seated(w, w.clients[i])
    && var g := RoomGame(w, w.clients[i].room);
       (Legal(g, MoveOf(coords)) ==> HasNick(w, g.onTurn) && HasNick(w, g.onStand))
  }

  /** The client at `a` is on turn now, the one at `b` has just moved. */
  function TurnTo(w: World, a: nat, b: nat): World
    requires a < |w.clients| && b < |w.clients|
  {
    var w1 := Put(w, a, WithLogical(w.clients[a], PlayingOnTurn));
    Put(w1, b, WithState(w1.clients[b], PlayingOnStand))
  }

  /** The clients' states follow the players in the room, and a game that is over sends both
      to the lobby. */
  function FollowGame(w: World, id: int): World
    requires HasRoom(w, id)
    requires HasNick(w, RoomGame(w, id).onTurn) && HasNick(w, RoomGame(w, id).onStand)
  {
    var g := RoomGame(w, id);
    var a, b := FindNick(w.clients, g.onTurn), FindNick(w.clients, g.onStand);
    if g.over then DestroyRoom(TurnTo(w, a, b), id, a, b) else TurnTo(w, a, b)
  }

  function WithGame(w: World, id: int, g: Game): (w': World)
    requires HasRoom(w, id)
    ensures HasRoom(w', id) && RoomGame(w', id) == g && w'.clients == w.clients
  {
    var r := FindRoom(w.rooms, id);
    var rs := w.rooms[r := RoomRec(id, g)];
    assert rs[r].id == id && rs[FindRoom(rs, id)].id == id;
    w.(rooms := rs)
  }

  /** A legal move is made in the room, and the clients follow. */
  ghost function Moved(w: World, i: nat, coords: string): World
    requires i < |w.clients| && IsMoveText(coords) && MoveDefined(w, i, coords)
  {
    var id := w.clients[i].room;
    var g := RoomGame(w, id);
    if !Legal(g, MoveOf(coords)) then w
    else FollowGame(WithGame(w, id, Play(g, MoveOf(coords))), id)
  }

  /** Who is told that he won when this move ends the game, and who that he lost; otherwise
      nobody, which is the number of clients. */
  ghost function WinnerTold(w: World, i: nat, coords: string): nat
    requires i < |w.clients| && IsMoveText(coords) && MoveDefined(w, i, coords)
  {
    var g := RoomGame(w, w.clients[i].room);
    if Legal(g, MoveOf(coords)) && Play(g, MoveOf(coords)).over
    then FindNick(w.clients, Play(g, MoveOf(coords)).onStand) else |w.clients|
  }

  ghost function LoserTold(w: World, i: nat, coords: string): nat
    requires i < |w.clients| && IsMoveText(coords) && MoveDefined(w, i, coords)
  {
    var g := RoomGame(w, w.clients[i].room);
    if Legal(g, MoveOf(coords)) && Play(g, MoveOf(coords)).over
    then FindNick(w.clients, Play(g, MoveOf(coords)).onTurn) else |w.clients|
  }

  predicate LeaveDefined(w: World, i: nat)
    requires i < |w.clients|
  {
    Seated(w, w.clients[i]) && HasNick(w, OpponentOf(w, w.clients[i]))
  }

  /** No step of handling this request follows a lookup that found nothing. */
  ghost predicate Defined(w: World, i: nat, rq: Request)
    requires i < |w.clients| && WellFormed(rq)
  {
    Routed(w.clients[i].state, rq) ==>
      match rq
      case Connect(nick) => ConnectDefined(w, i, nick)
      case Move(coords) => MoveDefined(w, i, coords)
      case Leave => LeaveDefined(w, i)
      case Chat(_) => Seated(w, w.clients[i])
      case _ => true
  }

  ghost function Handle(w: World, i: nat, rq: Request): World
    requires i < |w.clients| && WellFormed(rq) && Defined(w, i, rq)
  {
    var c := w.clients[i];
    if !Routed(c.state, rq) then w
    else
      match rq
      case Connect(nick) => Connecting(w, i, nick)
      case GetReady => Put(w, i, WithState(c, Ready))
      case Move(coords) => Moved(w, i, coords)
      case Leave => DestroyRoom(w, c.room, i, FindNick(w.clients, OpponentOf(w, c)))
      case Ping => if c.state == Pinged || c.state == Lost then Put(w, i, WithState(c, c.stateLast)) else w
      case Pong => Put(w, i, WithState(c, c.stateLast))
      case Chat(_) => w
      case Unknown => w
  }

  /** The request is accepted; a refused one costs the client its connection. */
  ghost predicate Accepted(w: World, i: nat, rq: Request)
    requires i < |w.clients| && WellFormed(rq) && Defined(w, i, rq)
  {
    && Routed(w.clients[i].state, rq)
    && (rq.Connect? && !HasNick(w, rq.nick) ==> FreeToName(w.clients[i]))
    && (rq.Move? ==> Legal(RoomGame(w, w.clients[i].room), MoveOf(rq.coords)))
  }

  // ----- Starting games

  /** Both clients take their seats in room `id`; the first one begins. */
  function Seat(w: World, id: int, i: nat, j: nat): World
    requires i < |w.clients| && j < |w.clients|
  {
    var w1 := Put(w, i, w.clients[i].(room := id));
    var w2 := Put(w1, j, w1.clients[j].(room := id));
    var w3 := Put(w2, i, WithState(w2.clients[i], PlayingOnTurn));
    Put(w3, j, WithState(w3.clients[j], PlayingOnStand))
  }

  function StartGame(w: World, i: nat, j: nat): (w': World)
    requires i < |w.clients| && j < |w.clients|
    ensures |w'.clients| == |w.clients|
  {
    var w1 := CreateRoom(w, w.clients[i].nick, w.clients[j].nick);
    Seat(w1, w1.roomsTotal, i, j)
  }
}
