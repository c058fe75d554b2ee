/** The client manager: the vector of clients, the lobby, and the handling of requests. */
module Manager {
  import opened Rules
  import opened MoveText
  import opened Session
  import opened Codec
  import opened Passes
  import opened Room
  import opened Clients
  import opened Lobbies

  class ClientManager {
    const lobby: Lobby
    var clients: seq<Client>
    /** What the clients and the rooms hold. */
    ghost var world: World

    ghost function Repr(): set<object>
      reads this, lobby
    {
      {this} + (set c | c in clients :: c as object) + lobby.Repr()
    }

    /** Every position of the vector is a client of its own. */
    ghost predicate ClientsValid()
      reads this, clients
    {
      && |world.clients| == |clients|
      && (forall i :: 0 <= i < |clients| ==> clients[i].Rec() == world.clients[i])
      && (forall i, j :: 0 <= i < j < |clients| ==> clients[i] != clients[j])
    }

    ghost predicate Valid()
      reads this, clients, lobby, lobby.games, Boards(lobby.games)
      ensures Valid() ==> |world.clients| == |clients|
    {
      && ClientsValid()
      && lobby.Valid()
      && world.rooms == lobby.rooms && world.roomsTotal == lobby.roomsTotal
    }

    /** The fields of the client at position `i`. */
    function At(i: nat): (c: ClientRec)
      requires Valid() && i < |clients|
      reads this, clients, lobby, lobby.games, Boards(lobby.games)
      ensures c == world.clients[i]
    {
      clients[i].Rec()
    }

    constructor ()
      ensures Valid() && world == World([], [], 0) && fresh(Repr())
    {
      lobby := new Lobby();
      clients := [];
      world := World([], [], 0);
    }

    // ----- Lookups

    method FindClientByNick(nick: string) returns (wanted: nat)
      requires Valid()
      ensures wanted == FindNick(world.clients, nick)
    {
      wanted := 0;
      while wanted < |clients|
        invariant wanted <= |clients|
        invariant FindNick(world.clients, nick) == wanted + FindNick(world.clients[wanted..], nick)
      {
        assert clients[wanted].Rec() == world.clients[wanted];
        if clients[wanted].nick == nick {
          break;
        }
        assert world.clients[wanted..][1..] == world.clients[wanted + 1..];
        wanted := wanted + 1;
      }
    }

    method FindClientByNickAndIp(nick: string, ip: string) returns (wanted: nat)
      requires Valid()
      ensures wanted == FindNickAndIp(world.clients, nick, ip)
    {
      wanted := 0;
      while wanted < |clients|
        invariant wanted <= |clients|
        invariant FindNickAndIp(world.clients, nick, ip) == wanted + FindNickAndIp(world.clients[wanted..], nick, ip)
      {
        assert clients[wanted].Rec() == world.clients[wanted];
        if clients[wanted].nick == nick && clients[wanted].ipAddress == ip {
          break;
        }
        assert world.clients[wanted..][1..] == world.clients[wanted + 1..];
        wanted := wanted + 1;
      }
    }

    method IsDisconnectedClient() returns (found: bool)
      requires Valid()
      ensures Valid() && (found <==> SomeDisconnected(world.clients))
    {
      found := false;
      for i := 0 to |clients|
        invariant forall k :: 0 <= k < i ==> world.clients[k].state != Disconnected
      {
        assert clients[i].Rec() == world.clients[i];
        if clients[i].state == Disconnected {
          return true;
        }
      }
    }

    /** The client a message to the opponent of `i` goes to, or nobody. */
    method SendToOpponentOf(i: nat) returns (recipient: nat)
      requires Valid() && i < |clients| && Seated(world, world.clients[i])
      ensures var j := FindNick(world.clients, OpponentOf(world, world.clients[i]));
        recipient == if j < |world.clients| && world.clients[j].state == Disconnected then |world.clients| else j
      ensures Valid()
    {
      assert clients[i].Rec() == world.clients[i];
      var nick := lobby.GetOpponentOf(clients[i].nick, clients[i].roomId);
      recipient := FindClientByNick(nick);
      if recipient < |clients| {
        assert clients[recipient].Rec() == world.clients[recipient];
        if clients[recipient].state == Disconnected {
          recipient := |clients|;
        }
      }
    }

    // ----- Clients come and go

    method CreateClient(ip: string, sock: int)
      requires Valid()
      modifies `clients, `world
      ensures Valid() && fresh(Repr() - old(Repr()))
      ensures world == Accept(old(world), ip, sock)
    {
      var client := new Client(ip, sock);
      clients := clients + [client];
      world := Accept(world, ip, sock);
    }

    method EraseAt(i: nat)
      requires Valid() && i < |clients|
      modifies `clients, `world
      ensures Valid() && Repr() <= old(Repr())
      ensures world == old(world).(clients := Without(old(world).clients, i))
    {
      clients := clients[..i] + clients[i + 1..];
      assert forall c :: c in clients ==> c in old(clients);
      world := world.(clients := Without(world.clients, i));
    }

    /** Both clients in the lobby, and their room gone. */
    method EndRoom(id: int, i: nat, j: nat)
      requires Valid() && i < |clients| && j < |clients| && MayDestroy(world, id)
      modifies `world, lobby`games, lobby`rooms, clients
      ensures Valid() && clients == old(clients) && Repr() <= old(Repr())
      ensures world == DestroyRoom(old(world), id, i, j)
    {
      ghost var w := world;
      ghost var w' := DestroyRoom(w, id, i, j);
      assert clients[i].Rec() == w.clients[i] && clients[j].Rec() == w.clients[j];
      NoRoomZero(w, id);
      DestroyRoomFields(w, id, i, j);
      hide IsView, DestroyRoom, WithLogical, FindRoom, Without, HasRoom, MayDestroy, Lobby.Valid;
      lobby.DestroyRoom(id, clients[i], clients[j]);
      assert clients[i].Rec() == w'.clients[i] && clients[j].Rec() == w'.clients[j];
      forall k | 0 <= k < |clients| ensures clients[k].Rec() == w'.clients[k] {
        if k != i && k != j {
          assert clients[k] != clients[i] && clients[k] != clients[j];
          assert old(clients[k].Rec()) == w.clients[k];
        }
      }
      world := w';
      assert ClientsValid();
    }

    method EraseClient(i: nat)
      requires Valid() && i < |clients| && EraseDefined(world, i)
      modifies `clients, `world, lobby`games, lobby`rooms, clients
      ensures Valid() && Repr() <= old(Repr())
      ensures world == Erase(old(world), i)
    {
      assert clients[i].Rec() == world.clients[i];
      var client := clients[i];
      if client.nick != "" {
        if client.roomId != 0 && (client.stateLast == PlayingOnTurn || client.stateLast == PlayingOnStand) {
          var nick := lobby.GetOpponentOf(client.nick, client.roomId);
          var opponent := FindClientByNick(nick);
          EndRoom(client.roomId, i, opponent);
        }
      }
      EraseAt(i);
    }

    method EraseLongestDisconnectedClient()
      requires Valid() && SomeDisconnected(world.clients)
      modifies `clients, `world
      ensures Valid() && Repr() <= old(Repr())
      ensures world == Dropped(old(world), Longest(old(world).clients))
    {
      var longest := 0;
      while clients[longest].state != Disconnected
        invariant longest < |clients|
        invariant forall k :: 0 <= k < longest ==> world.clients[k].state != Disconnected
        decreases |clients| - longest
      {
        assert clients[longest].Rec() == world.clients[longest];
        longest := longest + 1;
        assert longest < |clients|;
      }
      assert clients[longest].Rec() == world.clients[longest];
      for cli := longest + 1 to |clients|
        invariant longest < cli
        invariant LongestDisconnected(world.clients[..cli], longest)
      {
        assert clients[longest].Rec() == world.clients[longest] && clients[cli].Rec() == world.clients[cli];
        if clients[cli].state == Disconnected && clients[cli].cntrPings < clients[longest].cntrPings {
          longest := cli;
        }
      }
      assert world.clients[..|clients|] == world.clients;
      LongestUnique(world.clients, longest, Longest(world.clients));
      EraseAt(longest);
    }

    /** Disconnected in the server's logic as well, on a socket that is none. */
    method Disconnect(i: nat)
      requires Valid() && i < |clients|
      modifies `world, clients
      ensures Valid() && Repr() == old(Repr())
      ensures world == Put(old(world), i, WithState(old(world).clients[i], Disconnected).(sock := BAD_SOCKET))
    {
      assert clients[i].Rec() == world.clients[i];
      clients[i].SetState(Disconnected);
      clients[i].SetSocket(BAD_SOCKET);
      world := Put(world, i, WithState(world.clients[i], Disconnected).(sock := BAD_SOCKET));
    }

    method ClearFlagToDisconnect(i: nat)
      requires Valid() && i < |clients|
      modifies `world, clients
      ensures Valid() && world == Unflag(old(world), i) && Repr() == old(Repr())
    {
      assert clients[i].Rec() == world.clients[i];
      clients[i].SetFlagToDisconnect(false, "closed");
      world := Unflag(world, i);
    }

    // ----- Marks left by the ping round

    method FlagToDisconnect(i: nat)
      requires Valid() && i < |clients|
      modifies `world, clients
      ensures Valid() && world == Put(old(world), i, old(world).clients[i].(toDisconnect := true))
    {
      assert clients[i].Rec() == world.clients[i];
      clients[i].SetFlagToDisconnect(true, "not responding");
      world := Put(world, i, world.clients[i].(toDisconnect := true));
    }

    method FlagBoth(i: nat)
      requires Valid() && i < |clients|
      modifies `world, clients
      ensures Valid() && world == Put(old(world), i, old(world).clients[i].(toDisconnect := true, toErase := true))
    {
      assert clients[i].Rec() == world.clients[i];
      clients[i].SetFlagToDisconnect(true, "useless instance");
      clients[i].SetFlagToErase(true);
      world := Put(world, i, world.clients[i].(toDisconnect := true, toErase := true));
    }

    method FlagToErase(i: nat)
      requires Valid() && i < |clients|
      modifies `world, clients
      ensures Valid() && world == Put(old(world), i, old(world).clients[i].(toErase := true))
    {
      assert clients[i].Rec() == world.clients[i];
      clients[i].SetFlagToErase(true);
      world := Put(world, i, world.clients[i].(toErase := true));
    }

    method DecreaseInaccessCountOf(i: nat)
      requires Valid() && i < |clients|
      modifies `world, clients
      ensures Valid() && world == Put(old(world), i, old(world).clients[i].(pings := old(world).clients[i].pings - 1))
    {
      assert clients[i].Rec() == world.clients[i];
      clients[i].DecreaseInaccessCount();
      world := Put(world, i, world.clients[i].(pings := world.clients[i].pings - 1));
    }

    /** One ping less until the client is erased. */
    method CountDown(i: nat)
      requires Valid() && i < |clients|
      modifies `world, clients
      ensures Valid()
      ensures var d := old(world).clients[i].(pings := old(world).clients[i].pings - 1);
        world == Put(old(world), i, if d.pings == 0 then d.(toErase := true) else d)
    {
      hide Valid;
      DecreaseInaccessCountOf(i);
      if At(i).pings == 0 {
        FlagToErase(i);
      }
    }

    // ----- Requests

    method SetStateOf(i: nat, s: State)
      requires Valid() && i < |clients|
      modifies `world, clients
      ensures Valid()
      ensures world == Put(old(world), i, WithState(old(world).clients[i], s))
    {
      assert clients[i].Rec() == world.clients[i];
      clients[i].SetState(s);
      world := Put(world, i, WithState(world.clients[i], s));
    }

    method AssumeIdentity(i: nat, nick: string, stateLast: State, roomId: int)
      requires Valid() && i < |clients|
      modifies `world, clients
      ensures Valid()
      ensures world == Put(old(world), i,
        WithState(old(world).clients[i].(nick := nick), stateLast).(room := roomId, pings := LONG_PING))
    {
      hide IsView;
      assert clients[i].Rec() == world.clients[i];
      var client := clients[i];
      client.SetNick(nick);
      client.SetState(stateLast);
      client.SetRoomId(roomId);
      client.ResetInaccessCount();
      world := Put(world, i, WithState(world.clients[i].(nick := nick), stateLast).(room := roomId, pings := LONG_PING));
      assert ClientsValid();
    }

    method GiveUpIdentity(k: nat)
      requires Valid() && k < |clients|
      modifies `world, clients
      ensures Valid() && world == Put(old(world), k, old(world).clients[k].(nick := "", toErase := true))
    {
      hide IsView;
      assert clients[k].Rec() == world.clients[k];
      clients[k].SetNick("");
      clients[k].SetFlagToErase(true);
      world := Put(world, k, world.clients[k].(nick := "", toErase := true));
    }

    /** `i` continues under the nick, last state and room of `k`; the two may be the same. */
    method TakeOverFrom(i: nat, k: nat, nick: string)
      requires Valid() && i < |clients| && k < |clients|
      modifies `world, clients
      ensures Valid() && world == TakeOver(old(world), i, k, nick)
    {
      assert clients[k].Rec() == world.clients[k];
      AssumeIdentity(i, nick, clients[k].stateLast, clients[k].roomId);
      GiveUpIdentity(k);
    }

    /** Back in the game: whose turn it is, the opponent, and the playfield as it is now. */
    method ComposeMsgInGameRecn(i: nat) returns (reply: Reply)
      requires Valid() && i < |clients| && Seated(world, world.clients[i])
      ensures reply == GameAgain(world.clients[i].state == PlayingOnTurn, OpponentOf(world, world.clients[i]),
                                 PlayfieldText(RoomGame(world, world.clients[i].room).board))
    {
      assert clients[i].Rec() == world.clients[i];
      var opponent := lobby.GetOpponentOf(clients[i].nick, clients[i].roomId);
      var playfield := lobby.GetPlayfieldString(clients[i].roomId);
      reply := GameAgain(clients[i].state == PlayingOnTurn, opponent, playfield);
    }

    /** Tells a client that it is back, and its opponent if it is back in a game. */
    method WelcomeBack(i: nat) returns (reply: Reply)
      requires Valid() && i < |clients| && (world.clients[i].room != 0 ==> Seated(world, world.clients[i]))
      ensures reply == RoomReply(world, i)
    {
      assert clients[i].Rec() == world.clients[i];
      hide Valid;
      if clients[i].roomId == 0 {
        reply := LobbyAgain;
      } else {
        reply := ComposeMsgInGameRecn(i);
        var told := SendToOpponentOf(i);
      }
    }

    method HandleReconnection(i: nat, k: nat, nick: string) returns (reply: Reply)
      requires Valid() && i < |clients| && k < |clients| && ReconnectDefined(world, i, k)
      modifies `world, clients
      ensures Valid() && world == Reconnect(old(world), i, k, nick)
      ensures reply == ReconnectReply(old(world), i, k, nick)
    {
      assert clients[i].Rec() == world.clients[i] && clients[k].Rec() == world.clients[k];
      ReconnectCases(world, i, k, nick);
      hide IsView, TakeOver, WithState, RoomReply, Seated, Valid, Reconnect, ReconnectReply, ReconnectDefined;
      var otherState := clients[k].state;
      if otherState == Waiting || otherState == PlayingOnTurn || otherState == PlayingOnStand {
        reply := NickUsed;
      } else if otherState == Pinged || otherState == Lost {
        SetStateOf(i, clients[i].stateLast);
        reply := WelcomeBack(i);
      } else {
        TakeOverFrom(i, k, nick);
        reply := WelcomeBack(i);
      }
    }

    method NameClient(i: nat, nick: string)
      requires Valid() && i < |clients|
      modifies `world, clients
      ensures Valid()
      ensures world == Put(old(world), i, WithState(old(world).clients[i].(nick := nick), Waiting).(stateLast := Waiting))
    {
      hide IsView;
      assert clients[i].Rec() == world.clients[i];
      var client := clients[i];
      client.SetNick(nick);
      client.SetState(Waiting);
      client.SetStateLast(Waiting);
      world := Put(world, i, WithState(world.clients[i].(nick := nick), Waiting).(stateLast := Waiting));
      assert ClientsValid();
    }

    method RequestConnect(i: nat, nick: string, state: State) returns (rv: int)
      requires Valid() && i < |clients| && state == world.clients[i].state && ConnectDefined(world, i, nick)
      modifies `world, clients
      ensures Valid() && world == Connecting(old(world), i, nick)
      ensures rv == if !HasNick(old(world), nick) && !FreeToName(old(world).clients[i]) then -1 else 0
    {
      hide IsView, WithState, Reconnect, ReconnectDefined, ReconnectReply;
      rv := 0;
      assert clients[i].Rec() == world.clients[i];
      var client := clients[i];
      var otherNick := FindClientByNick(nick);
      var otherIpaddr := FindClientByNickAndIp(nick, client.ipAddress);
      if otherNick == |clients| {
        if client.stateLast == New && (state == New || state == Pinged || state == Lost || state == Disconnected) {
          NameClient(i, nick);
        } else {
          rv := -1;
        }
      } else {
        if otherIpaddr != |clients| {
          var reply := HandleReconnection(i, otherIpaddr, nick);
        }
      }
    }

    method RequestReady(i: nat) returns (rv: int)
      requires Valid() && i < |clients|
      modifies `world, clients
      ensures Valid() && rv == 0 && world == Put(old(world), i, WithState(old(world).clients[i], Ready))
    {
      SetStateOf(i, Ready);
      rv := 0;
    }

    /** The states of the two players follow the turn in their room. */
    method PassTurn(onTurn: nat, onStand: nat)
      requires Valid() && onTurn < |clients| && onStand < |clients|
      modifies `world, clients
      ensures Valid()
      ensures world == TurnTo(old(world), onTurn, onStand)
    {
      assert clients[onTurn].Rec() == world.clients[onTurn];
      var next := clients[onTurn];
      if next.state == Pinged || next.state == Lost || next.state == Disconnected {
        next.SetStateLast(PlayingOnTurn);
      } else {
        next.SetState(PlayingOnTurn);
      }
      world := Put(world, onTurn, WithLogical(world.clients[onTurn], PlayingOnTurn));
      SetStateOf(onStand, PlayingOnStand);
    }

    method MoveInRoom(id: int, coordinates: string) returns (moved: bool)
      requires Valid() && IsMoveText(coordinates) && HasRoom(world, id)
      modifies `world, lobby`rooms, lobby.games, Boards(lobby.games)
      ensures Valid()
      ensures var g := RoomGame(old(world), id);
        moved == Legal(g, MoveOf(coordinates)) && world == WithGame(old(world), id, Play(g, MoveOf(coordinates)))
    {
      moved := lobby.MoveInRoom(id, coordinates);
      world := world.(rooms := lobby.rooms);
    }

    method NamesAtTable(id: int) returns (onTurn: string, onStand: string, status: GameState)
      requires Valid() && HasRoom(world, id)
      ensures onTurn == RoomGame(world, id).onTurn && onStand == RoomGame(world, id).onStand
      ensures status == Gameover <==> RoomGame(world, id).over
    {
      var r := lobby.GetRoomById(id);
      assert IsView(lobby.games[r], lobby.rooms[r]);
      onTurn, onStand, status := lobby.games[r].onTurn, lobby.games[r].onStand, lobby.games[r].gameState;
    }

    /** After an accepted move in room `id`: who is told that he won, and who that he lost. */
    method FollowRoom(id: int) returns (winner: nat, loser: nat)
      requires Valid() && HasRoom(world, id)
      requires HasNick(world, RoomGame(world, id).onTurn) && HasNick(world, RoomGame(world, id).onStand)
      modifies `world, clients, lobby`games, lobby`rooms
      ensures Valid() && clients == old(clients) && Repr() <= old(Repr())
      ensures world == FollowGame(old(world), id)
      ensures var g := RoomGame(old(world), id); var cs := old(world).clients;
        && winner == (if g.over then FindNick(cs, g.onStand) else |cs|)
        && loser == if g.over then FindNick(cs, g.onTurn) else |cs|
    {
      hide IsView, DestroyRoom, TurnTo;
      winner, loser := |clients|, |clients|;
      var nickOnTurn, nickOnStand, status := NamesAtTable(id);
      var onTurn := FindClientByNick(nickOnTurn);
      var onStand := FindClientByNick(nickOnStand);
      PassTurn(onTurn, onStand);
      TurnToRooms(old(world), onTurn, onStand);
      if status == Gameover {
        loser, winner := onTurn, onStand;
        EndRoom(id, onTurn, onStand);
      }
    }

    method RequestMove(i: nat, coordinates: string) returns (rv: int, winner: nat, loser: nat)
      requires Valid() && i < |clients| && IsMoveText(coordinates) && MoveDefined(world, i, coordinates)
      modifies `world, clients, lobby`games, lobby`rooms, lobby.games, Boards(lobby.games)
      ensures Valid() && clients == old(clients) && Repr() <= old(Repr())
      ensures world == Moved(old(world), i, coordinates)
      ensures rv == if Legal(RoomGame(old(world), old(world).clients[i].room), MoveOf(coordinates)) then 0 else -1
      ensures winner == WinnerTold(old(world), i, coordinates) && loser == LoserTold(old(world), i, coordinates)
    {
      hide Valid, IsView, Legal, Play, FollowGame;
      winner, loser := |clients|, |clients|;
      var roomId := At(i).room;
      PlayKeepsIllegal(RoomGame(world, roomId), MoveOf(coordinates));
      SameGame(world, roomId);
      var moved := MoveInRoom(roomId, coordinates);
      if moved {
        winner, loser := FollowRoom(roomId);
      }
      rv := if moved then 0 else -1;
    }

    method RequestLeave(i: nat) returns (rv: int)
      requires Valid() && i < |clients| && LeaveDefined(world, i)
      modifies `world, lobby`games, lobby`rooms, clients
      ensures Valid() && clients == old(clients) && Repr() <= old(Repr()) && rv == 0
      ensures var c := old(world).clients[i];
        world == DestroyRoom(old(world), c.room, i, FindNick(old(world).clients, OpponentOf(old(world), c)))
    {
      assert clients[i].Rec() == world.clients[i];
      var told := SendToOpponentOf(i);
      var nick := lobby.GetOpponentOf(clients[i].nick, clients[i].roomId);
      var opponent := FindClientByNick(nick);
      EndRoom(clients[i].roomId, i, opponent);
      rv := 0;
    }

    method RequestPing(i: nat, state: State) returns (rv: int)
      requires Valid() && i < |clients| && state == world.clients[i].state
      modifies `world, clients
      ensures Valid() && rv == 0
      ensures var c := old(world).clients[i];
        world == if state == Pinged || state == Lost then Put(old(world), i, WithState(c, c.stateLast)) else old(world)
    {
      assert clients[i].Rec() == world.clients[i];
      if state == Pinged || state == Lost {
        SetStateOf(i, clients[i].stateLast);
      }
      rv := 0;
    }

    method RequestPong(i: nat) returns (rv: int)
      requires Valid() && i < |clients|
      modifies `world, clients
      ensures Valid() && rv == 0
      ensures world == Put(old(world), i, WithState(old(world).clients[i], old(world).clients[i].stateLast))
    {
      assert clients[i].Rec() == world.clients[i];
      SetStateOf(i, clients[i].stateLast);
      rv := 0;
    }

    method RequestChat(i: nat) returns (rv: int)
      requires Valid() && i < |clients| && Seated(world, world.clients[i])
      ensures rv == 0
    {
      var told := SendToOpponentOf(i);
      rv := 0;
    }

    // ----- Routing

    /** Handles the request in the queue of keys and values; -1 means that the client
        violated the protocol. */
    method RouteRequest(i: nat, rqst: seq<string>, ghost rq: Request) returns (processed: int)
      requires Valid() && i < |clients|
      requires rqst != [] && |rqst| == (if TakesValue(rqst[0]) then 2 else 1) && rq == RequestOf(rqst)
      requires WellFormed(rq) && Defined(world, i, rq)
      modifies `world, clients, lobby`games, lobby`rooms, lobby.games, Boards(lobby.games)
      ensures Valid() && clients == old(clients) && Repr() <= old(Repr())
      ensures world == Handle(old(world), i, rq)
      ensures processed == 0 <==> Accepted(old(world), i, rq)
    {
      hide IsView, Legal, Play, Moved, Connecting, DestroyRoom, WithState, MoveDefined, ConnectDefined, WinnerTold, LoserTold, Lobby.Valid, FreeToName;
      processed := 0;
      var queue := rqst;
      while queue != []
        invariant Valid() && clients == old(clients) && Repr() <= old(Repr())
        invariant queue == rqst || queue == []
        invariant queue == rqst ==> world == old(world) && lobby.games == old(lobby.games)
        invariant queue == [] ==> world == Handle(old(world), i, rq) && (processed == 0 <==> Accepted(old(world), i, rq))
        decreases |queue|
      {
        assert clients[i].Rec() == world.clients[i];
        var state := clients[i].state;
        var key := queue[0];
        if key == "c" {
          queue := queue[1..];
          processed := RequestConnect(i, queue[0], state);
        } else if key == "rd" && (state == Waiting || state == Pinged) {
          processed := RequestReady(i);
        } else if key == "m" && (state == PlayingOnTurn || state == Pinged) {
          queue := queue[1..];
          var winner, loser;
          processed, winner, loser := RequestMove(i, queue[0]);
        } else if key == "l" && (state == PlayingOnTurn || state == PlayingOnStand || state == Pinged) {
          processed := RequestLeave(i);
        } else if key == ">" {
          processed := RequestPing(i, state);
        } else if key == "<" {
          processed := RequestPong(i);
        } else if key == "ch" && (state == PlayingOnTurn || state == PlayingOnStand || state == Pinged) {
          queue := queue[1..];
          processed := RequestChat(i);
        } else {
          processed := -1;
          break;
        }
        queue := queue[1..];
      }
    }

    /** Handles all messages of a client until one is refused. */
    method Process(i: nat, data: seq<string>) returns (processed: int)
      requires Valid() && i < |clients| && AllItems(data)
      requires Exec(world, ServeSteps(world, i, RequestsOf(data))).Some?
      modifies Repr()
      ensures Valid() && clients == old(clients) && Repr() <= old(Repr())
      ensures Exec(old(world), ServeSteps(old(world), i, RequestsOf(data))) == Codec.Some(world)
      ensures processed == 0 <==> AllAccepted(old(world), i, RequestsOf(data))
    {
      hide IsView, Handle, Accepted, StepDefined, Defined, ServeSteps, AllAccepted, Exec, RequestOf, IsItem, Lobby.Valid, Valid;
      ServeNone(i);
      processed := 0;
      var rest := data;
      while rest != []
        invariant Valid() && clients == old(clients) && Repr() <= old(Repr())
        invariant AllItems(rest) && processed == 0
        invariant Exec(world, ServeSteps(world, i, RequestsOf(rest))).Some?
        invariant Exec(world, ServeSteps(world, i, RequestsOf(rest))) == Exec(old(world), ServeSteps(old(world), i, RequestsOf(data)))
        invariant AllAccepted(world, i, RequestsOf(rest)) <==> AllAccepted(old(world), i, RequestsOf(data))
        decreases |rest|
      {
        ghost var rqs := RequestsOf(rest);
        ServeFirst(world, i, rqs);
        InRepr();
        var rqst := KeyValues(rest[0]);
        ServeFirstDefined(world, i, rest);
        var routed := RouteRequest(i, rqst, rqs[0]);
        rest := rest[1..];
        assert RequestsOf(rest) == rqs[1..];
        if routed != 0 {
          processed := -1;
          break;
        }
      }
      if processed == 0 {
        assert RequestsOf(rest) == [];
      }
    }

    lemma InRepr()
      ensures this in Repr() && lobby in Repr()
      ensures forall c :: c in clients ==> c in Repr()
      ensures forall r :: r in lobby.games ==> r in Repr()
      ensures forall b :: b in Boards(lobby.games) ==> b in Repr()
    {
    }

    // ----- Starting games

    method SetRoomIdOf(i: nat, id: int)
      requires Valid() && i < |clients|
      modifies `world, clients
      ensures Valid() && world == Put(old(world), i, old(world).clients[i].(room := id))
    {
      assert clients[i].Rec() == world.clients[i];
      clients[i].SetRoomId(id);
      world := Put(world, i, world.clients[i].(room := id));
    }

    method StartGame(id: int, i: nat, j: nat)
      requires Valid() && i < |clients| && j < |clients|
      modifies `world, clients
      ensures Valid() && world == Seat(old(world), id, i, j)
    {
      SetRoomIdOf(i, id);
      SetRoomIdOf(j, id);
      SetStateOf(i, PlayingOnTurn);
      SetStateOf(j, PlayingOnStand);
    }

    method CreateRoomFor(i: nat, j: nat) returns (id: int)
      requires Valid() && i < |clients| && j < |clients|
      modifies `world, lobby
      ensures Valid() && fresh(lobby.Repr() - old(lobby.Repr())) && clients == old(clients)
      ensures world == CreateRoom(old(world), old(world).clients[i].nick, old(world).clients[j].nick)
      ensures id == world.roomsTotal
    {
      hide NewGame;
      var nick1, nick2 := At(i).nick, At(j).nick;
      id := lobby.CreateRoom(nick1, nick2);
      world := CreateRoom(world, world.clients[i].nick, world.clients[j].nick);
    }

    method PairUp(i: nat, j: nat)
      requires Valid() && i < |clients| && j < |clients|
      modifies `world, clients, lobby
      ensures Valid() && clients == old(clients) && fresh(lobby.Repr() - old(lobby.Repr()))
      ensures world == Session.StartGame(old(world), i, j)
    {
      SeatIsStart(world, i, j);
      hide IsView, Valid, Session.StartGame, Seat, CreateRoom;
      var roomId := CreateRoomFor(i, j);
      StartGame(roomId, i, j);
    }

    /** The inner search: the next ready client from `p` on.  `looked` counts the clients
        looked at. */
    method SearchReady(p: nat) returns (found: nat, ghost looked: nat)
      requires Valid() && p <= |clients|
      ensures Valid() && found == NextReady(world.clients, p)
      ensures looked == if found < |clients| then found - p + 1 else |clients| - p
    {
      hide Valid, NextReady;
      found, looked := p, 0;
      while found < |clients|
        invariant Valid() && p <= found <= |clients| && looked == found - p
        invariant NextReady(world.clients, found) == NextReady(world.clients, p)
      {
        ReadyHere(world.clients, found);
        looked := looked + 1;
        if At(found).state == Ready {
          return;
        }
        found := found + 1;
      }
      NoneLeft(world.clients);
    }

    /** Looks for an opponent for the ready client at `i`, and starts their game if there is
        one. */
    method PairWithNext(i: nat) returns (next: nat, ghost looked: nat)
      requires Valid() && i < |clients| && world.clients[i].state == Ready
      modifies `world, clients, lobby
      ensures Valid() && clients == old(clients) && fresh(lobby.Repr() - old(lobby.Repr()))
      ensures i < next <= |clients| && next == NextReady(old(world).clients, i + 1)
      ensures looked == if next < |clients| then next - i else |clients| - i - 1
      ensures Exec(old(world), PairSteps(old(world), i)) == Exec(world, PairSteps(world, if next < |clients| then next + 1 else i + 1))
      ensures next == |clients| ==> world == old(world)
    {
      hide Valid, Session.StartGame, PairSteps, Exec, NextReady;
      next, looked := SearchReady(i + 1);
      ReadyHere(world.clients, i);
      if next < |clients| {
        PairStepsRun(world, i, i, next);
        PairUp(i, next);
      } else {
        PairNone(world, i);
      }
    }

    /** Pairs the ready clients in the order of the vector.  Although the loops are nested,
        they look at a linear number of clients: `looked` counts them. */
    method MoveReadyClientsToPlay() returns (ghost looked: nat)
      requires Valid()
      modifies `world, clients, lobby
      ensures Valid() && fresh(Repr() - old(Repr())) && clients == old(clients)
      ensures Exec(old(world), PairSteps(old(world), 0)) == Codec.Some(world)
      ensures looked <= 2 * |clients|
    {
      hide Valid, PairSteps, Exec, NextReady;
      looked := 0;
      var cli1 := 0;
      ghost var last := false;
      while cli1 < |clients|
        invariant Valid() && clients == old(clients) && fresh(lobby.Repr() - old(lobby.Repr()))
        invariant cli1 <= |clients|
        invariant Exec(world, PairSteps(world, cli1)) == Exec(old(world), PairSteps(old(world), 0))
        invariant last ==> NextReady(world.clients, cli1) == |clients|
        invariant looked <= cli1 + if last then |clients| else cli1
        decreases |clients| - cli1
      {
        looked := looked + 1;
        ReadyHere(world.clients, cli1);
        if At(cli1).state == Ready {
          var cli2;
          ghost var more;
          cli2, more := PairWithNext(cli1);
          looked := looked + more;
          if cli2 < |clients| {
            cli1 := cli2;
          } else {
            last := true;
          }
        } else {
          PairStepsSame(world, cli1, cli1 + 1);
        }
        cli1 := cli1 + 1;
      }
      PairDone(world);
    }
  }

  lemma ServeFirstDefined(w: World, i: nat, items: seq<string>)
    requires AllItems(items) && items != []
    requires StepDefined(w, DoServe(i, RequestsOf(items)[0]))
    ensures var q := Tokens(items[0]); var rq := RequestsOf(items)[0];
      && q != [] && |q| == (if TakesValue(q[0]) then 2 else 1) && rq == RequestOf(q)
      && i < |w.clients| && WellFormed(rq) && Defined(w, i, rq)
  {
    KeysAndValues(items[0]);
  }

  lemma ServeNone(i: nat)
    ensures forall w: World :: Exec(w, ServeSteps(w, i, [])) == Codec.Some(w) && AllAccepted(w, i, [])
  {
  }

  lemma SeatIsStart(w: World, i: nat, j: nat)
    requires i < |w.clients| && j < |w.clients|
    ensures var w1 := CreateRoom(w, w.clients[i].nick, w.clients[j].nick);
      |w1.clients| == |w.clients| && Session.StartGame(w, i, j) == Seat(w1, w1.roomsTotal, i, j)
  {
  }

  lemma PairNone(w: World, i: nat)
    requires i < |w.clients| && w.clients[i].state == Ready && NextReady(w.clients, i + 1) == |w.clients|
    ensures PairSteps(w, i) == [] == PairSteps(w, i + 1)
  {
    ReadyHere(w.clients, i);
    PairStepsNone(w, i);
    PairStepsNone(w, i + 1);
  }

  lemma PairDone(w: World)
    ensures Exec(w, PairSteps(w, |w.clients|)) == Codec.Some(w)
  {
  }

  lemma TurnToRooms(w: World, a: nat, b: nat)
    requires a < |w.clients| && b < |w.clients|
    ensures TurnTo(w, a, b).rooms == w.rooms && |TurnTo(w, a, b).clients| == |w.clients|
  {
  }

  lemma SameGame(w: World, id: int)
    requires HasRoom(w, id)
    ensures WithGame(w, id, RoomGame(w, id)) == w
  {
  }

  lemma PlayKeepsIllegal(g: Game, m: Coords)
    ensures !Legal(g, m) ==> Play(g, m) == g
    ensures Legal(g, m) ==> Play(g, m).onTurn == g.onStand && Play(g, m).onStand == g.onTurn
  {
  }

  lemma DestroyRoomFields(w: World, id: int, i: nat, j: nat)
    requires i < |w.clients| && j < |w.clients| && MayDestroy(w, id)
    ensures var w' := DestroyRoom(w, id, i, j);
      && |w'.clients| == |w.clients| && w'.roomsTotal == w.roomsTotal
      && w'.rooms == (if id == 0 then w.rooms else Without(w.rooms, FindRoom(w.rooms, id)))
      && (forall k :: 0 <= k < |w.clients| && k != i && k != j ==> w'.clients[k] == w.clients[k])
      && (i != j ==> w'.clients[i] == WithLogical(w.clients[i], Waiting).(room := 0)
                     && w'.clients[j] == WithLogical(w.clients[j], Waiting).(room := 0))
      && (i == j ==> w'.clients[i] == WithLogical(WithLogical(w.clients[i], Waiting), Waiting).(room := 0))
  {
  }

  lemma NoneLeft(cs: seq<ClientRec>)
    ensures NextReady(cs, |cs|) == |cs|
  {
  }

  lemma NoRoomZero(w: World, id: int)
    ensures id != 0 && MayDestroy(w, id) ==> HasRoom(w, id)
  {
  }

  lemma LongestUnique(cs: seq<ClientRec>, i: nat, j: nat)
    requires LongestDisconnected(cs, i) && LongestDisconnected(cs, j)
    ensures i == j
  {
  }
}
