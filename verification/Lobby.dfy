/** The lobby: the rooms of the games in progress. */
module Lobbies {
  import opened Rules
  import opened MoveText
  import opened Session
  import opened Room
  import opened Clients

  function Boards(rs: seq<RoomHnefatafl>): set<object> {
    set r | r in rs :: r.pf as object
  }

  ghost predicate IsView(r: RoomHnefatafl, v: RoomRec)
    reads r, r.pf
  {
    r.Shaped() && v == RoomRec(r.roomId, r.GameView())
  }

  class Lobby {
    var games: seq<RoomHnefatafl>
    var roomsTotal: int
    /** What the rooms hold. */
    ghost var rooms: seq<RoomRec>

    ghost function Repr(): set<object>
      reads this
    {
      {this} + (set r | r in games :: r as object) + Boards(games)
    }

    /** Different rooms are different objects with different boards. */
    ghost predicate Valid()
      reads this, games, Boards(games)
    {
      && |rooms| == |games|
      && (forall i :: 0 <= i < |games| ==> IsView(games[i], rooms[i]))
      && (forall i, j :: 0 <= i < j < |games| ==> games[i] != games[j] && games[i].pf != games[j].pf)
    }

    constructor ()
      ensures Valid() && rooms == [] && roomsTotal == 0 && fresh(Repr())
    {
      games := [];
      roomsTotal := 0;
      rooms := [];
    }

    method GetRoomById(id: int) returns (wanted: nat)
      requires Valid()
      ensures wanted == FindRoom(rooms, id)
    {
      wanted := 0;
      while wanted < |games|
        invariant wanted <= |games|
        invariant FindRoom(rooms, id) == wanted + FindRoom(rooms[wanted..], id)
      {
        assert IsView(games[wanted], rooms[wanted]);
        if games[wanted].roomId == id {
          break;
        }
        assert rooms[wanted..][1..] == rooms[wanted + 1..];
        wanted := wanted + 1;
      }
    }

    method CreateRoom(client1: string, client2: string) returns (id: int)
      requires Valid()
      modifies this
      ensures Valid() && fresh(Repr() - old(Repr()))
      ensures roomsTotal == old(roomsTotal) + 1 == id
      ensures rooms == old(rooms) + [RoomRec(id, NewGame(client1, client2))]
    {
      roomsTotal := roomsTotal + 1;
      var room := new RoomHnefatafl(roomsTotal, client1, client2);
      games := games + [room];
      rooms := rooms + [RoomRec(roomsTotal, NewGame(client1, client2))];
      id := roomsTotal;
    }

    method EraseRoom(r: nat)
      requires Valid() && r < |games|
      modifies `games, `rooms
      ensures Valid() && Repr() <= old(Repr())
      ensures rooms == Without(old(rooms), r)
    {
      games := games[..r] + games[r + 1..];
      rooms := rooms[..r] + rooms[r + 1..];
    }

    /** Sends a client back to the lobby in the way its connection allows. */
    method SendToLobby(client: Client, stateClient: State)
      requires Transient(stateClient) == Transient(client.state)
      modifies client
      ensures client.Rec() == WithLogical(old(client.Rec()), Waiting)
      ensures Transient(client.state) == old(Transient(client.state))
    {
      if stateClient == Pinged || stateClient == Lost || stateClient == Disconnected {
        client.SetStateLast(Waiting);
      } else {
        client.SetState(Waiting);
      }
    }

    method DestroyRoom(id: int, client1: Client, client2: Client)
      requires Valid()
      requires id == 0 || FindRoom(rooms, id) < |rooms|
      modifies `games, `rooms, client1, client2
      ensures Valid() && Repr() <= old(Repr())
      ensures rooms == if id == 0 then old(rooms) else Without(old(rooms), FindRoom(old(rooms), id))
      ensures client1 != client2 ==>
        && client1.Rec() == WithLogical(old(client1.Rec()), Waiting).(room := 0)
        && client2.Rec() == WithLogical(old(client2.Rec()), Waiting).(room := 0)
      ensures client1 == client2 ==>
        client1.Rec() == WithLogical(WithLogical(old(client1.Rec()), Waiting), Waiting).(room := 0)
    {
      hide IsView, Without, FindRoom, WithLogical;
      var stateClient1, stateClient2 := client1.state, client2.state;
      SendToLobby(client1, stateClient1);
      SendToLobby(client2, stateClient2);
      if id != 0 {
        var r := GetRoomById(id);
        EraseRoom(r);
      }
      client1.SetRoomId(0);
      client2.SetRoomId(0);
    }

    method MoveInRoom(id: int, coordinates: string) returns (moved: bool)
      requires Valid() && IsMoveText(coordinates)
      requires FindRoom(rooms, id) < |rooms|
      modifies `rooms, games, Boards(games)
      ensures Valid()
      ensures var r := FindRoom(old(rooms), id); var g := old(rooms)[r].game;
        && moved == Legal(g, MoveOf(coordinates))
        && rooms == old(rooms)[r := RoomRec(id, Play(g, MoveOf(coordinates)))]
    {
      var r := GetRoomById(id);
      assert IsView(games[r], rooms[r]);
      ghost var g := rooms[r].game;
      hide Play, Legal;
      moved := games[r].ProcessMove(coordinates);
      rooms := rooms[r := RoomRec(id, Play(g, MoveOf(coordinates)))];
      forall i | 0 <= i < |games| ensures IsView(games[i], rooms[i]) {
        assert i != r ==> games[i] != games[r] && games[i].pf != games[r].pf && old(IsView(games[i], rooms[i]));
      }
    }

    method GetPlayfieldString(id: int) returns (text: string)
      requires Valid() && FindRoom(rooms, id) < |rooms|
      ensures text == PlayfieldText(rooms[FindRoom(rooms, id)].game.board)
    {
      var r := GetRoomById(id);
      assert IsView(games[r], rooms[r]);
      text := games[r].GetPlayfieldString();
    }

    method GetOpponentOf(nick: string, roomId: int) returns (opponent: string)
      requires Valid() && FindRoom(rooms, roomId) < |rooms|
      ensures opponent == OpponentIn(rooms[FindRoom(rooms, roomId)].game, nick)
    {
      var r := GetRoomById(roomId);
      assert IsView(games[r], rooms[r]);
      opponent := if nick == games[r].onTurn then games[r].onStand else games[r].onTurn;
    }
  }
}
