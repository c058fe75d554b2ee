/** The server's two threads: the update pass over the clients, and the ping round. */
module Servers {
  import opened Session
  import opened Codec
  import opened Passes
  import opened Lobbies
  import opened Manager

  class Server {
    const mngClient: ClientManager
    const maxClients: int

    ghost predicate Valid()
      reads this, mngClient, mngClient.clients, mngClient.lobby, mngClient.lobby.games, Boards(mngClient.lobby.games)
      ensures Valid() ==> mngClient.Valid()
    {
      mngClient.Valid() && maxClients >= 1
    }

    /** One more than asked for: the last client to come is told that the server is full. */
    constructor (clients: int)
      requires clients >= 0
      ensures Valid() && maxClients == clients + 1 && mngClient.world == World([], [], 0)
    {
      maxClients := clients + 1;
      mngClient := new ClientManager();
    }

    method CloseConnection(i: nat)
      requires Valid() && i < |mngClient.clients| && CloseDefined(mngClient.world, i)
      modifies mngClient`world, mngClient.clients
      ensures Valid() && mngClient.world == Close(old(mngClient.world), i) && mngClient.Repr() == old(mngClient.Repr())
    {
      var m := mngClient;
      if m.At(i).sock < 0 {
        return;
      }
      m.Disconnect(i);
      var stateLast := m.At(i).stateLast;
      if stateLast == PlayingOnTurn || stateLast == PlayingOnStand {
        var told := m.SendToOpponentOf(i);
      }
    }

    method RefuseConnection()
      requires Valid() && mngClient.clients != []
      requires var p := |mngClient.clients| - 1; var w := mngClient.world;
        CloseDefined(w, p) && EraseDefined(Close(w, p), p)
      modifies mngClient.Repr()
      ensures Valid() && mngClient.Repr() <= old(mngClient.Repr())
      ensures mngClient.world == Erase(Close(old(mngClient.world), |old(mngClient.clients)| - 1), |old(mngClient.clients)| - 1)
    {
      var newClient := |mngClient.clients| - 1;
      mngClient.InRepr();
      hide EraseDefined, CloseDefined, Erase;
      CloseConnection(newClient);
      mngClient.EraseClient(newClient);
    }

    /** 0 if everything the client sent was accepted. */
    method ServeClient(i: nat, buffer: string) returns (valid: int)
      requires Valid() && i < |mngClient.clients|
      requires Exec(mngClient.world, MessageSteps(mngClient.world, i, buffer)).Some?
      modifies mngClient.Repr()
      ensures Valid() && mngClient.Repr() <= old(mngClient.Repr())
      ensures Exec(old(mngClient.world), MessageSteps(old(mngClient.world), i, buffer)) == Some(mngClient.world)
      ensures valid == 0 <==> MessageAccepted(old(mngClient.world), i, buffer)
    {
      hide IsItem, Exec, ServeSteps, AllAccepted, Items;
      valid := 0;
      if IsValidFormat(buffer) {
        PrintParse(buffer);
        var data := ParseMsg(buffer);
        if data != [] {
          valid := mngClient.Process(i, data);
        }
      } else {
        valid := 1;
        NoSteps(mngClient.world);
      }
    }

    /** Makes room when the server is full. */
    method CheckCapacity()
      requires Valid() && Exec(mngClient.world, CapacitySteps(mngClient.world, maxClients)).Some?
      modifies mngClient.Repr()
      ensures Valid() && mngClient.Repr() <= old(mngClient.Repr())
      ensures Exec(old(mngClient.world), CapacitySteps(old(mngClient.world), maxClients)) == Some(mngClient.world)
    {
      NoSteps(mngClient.world);
      mngClient.InRepr();
      hide Exec, LongestDisconnected, CloseDefined, EraseDefined, Erase, Close, ClientManager.Valid, ClientManager.Repr;
      if |mngClient.clients| == maxClients {
        var found := mngClient.IsDisconnectedClient();
        if found {
          EvictSteps(mngClient.world, maxClients);
          mngClient.EraseLongestDisconnectedClient();
        } else {
          RefuseSteps(mngClient.world, maxClients);
          RefuseConnection();
        }
      }
    }

    /** The loop over the clients: the position advances only past clients that are done. */
    method UpdateLoop(events: map<int, Event>)
      requires Valid() && Exec(mngClient.world, LoopSteps(mngClient.world, 0, events)).Some?
      modifies mngClient.Repr()
      ensures Valid() && mngClient.Repr() <= old(mngClient.Repr())
      ensures Exec(old(mngClient.world), LoopSteps(old(mngClient.world), 0, events)) == Some(mngClient.world)
    {
      hide Exec, LoopSteps, MessageSteps, MessageAccepted, CloseDefined, EraseDefined, Erase, ClientManager.Valid, ClientManager.Repr;
      ghost var all := Exec(mngClient.world, LoopSteps(mngClient.world, 0, events));
      var m := mngClient;
      var cli := 0;
      while cli < |m.clients|
        invariant Valid() && m.Repr() <= old(m.Repr())
        invariant cli <= |m.clients|
        invariant all.Some? && Exec(m.world, LoopSteps(m.world, cli, events)) == all
        decreases |m.clients| - cli, Flag(cli < |m.clients| && m.world.clients[cli].toDisconnect),
          Flag(cli < |m.clients| && m.world.clients[cli].sock >= 0)
      {
        m.InRepr();
        var c := m.At(cli);
        if c.toDisconnect {
          LoopFlagged(m.world, cli, events);
          CloseConnection(cli);
          m.ClearFlagToDisconnect(cli);
          continue;
        }
        if c.toErase {
          LoopErased(m.world, cli, events);
          m.EraseClient(cli);
          continue;
        }
        if c.sock < 0 {
          LoopSkipped(m.world, cli, events);
          cli := cli + 1;
          continue;
        }
        match EventOf(events, c.sock) {
          case Quiet =>
            LoopSkipped(m.world, cli, events);
          case Failed =>
            LoopFailed(m.world, cli, events);
            CloseConnection(cli);
            continue;
          case Hangup =>
            LoopFailed(m.world, cli, events);
            CloseConnection(cli);
            continue;
          case Message(buffer) =>
            LoopMessage(m.world, cli, events, buffer);
            var served := ServeClient(cli, buffer);
            if served != 0 {
              m.InRepr();
              CloseConnection(cli);
              continue;
            }
        }
        cli := cli + 1;
      }
      LoopDone(m.world, cli, events);
    }

    /** One update pass. */
    method UpdateClients(input: Input)
      requires Valid() && PassDefined(mngClient.world, input, maxClients)
      modifies mngClient.Repr()
      ensures Valid() && fresh(mngClient.Repr() - old(mngClient.Repr()))
      ensures mngClient.world == Pass(old(mngClient.world), input, maxClients)
    {
      hide PassDefined, Pass, PassSteps, Exec, LoopSteps, CapacitySteps, PairSteps, ClientManager.Valid, Accept;
      ghost var objects := mngClient.Repr();
      {
        hide ClientManager.Repr;
        PassPhases(mngClient.world, input, maxClients);
        mngClient.InRepr();
        if Arrives(input) {
          mngClient.CreateClient(input.arrival.value.0, input.arrival.value.1);
        }
        CheckCapacity();
        UpdateLoop(input.events);
        mngClient.InRepr();
        assert forall o :: o in mngClient.Repr() ==> o in objects || fresh(o);
      }
      ghost var before := mngClient.Repr();
      var looked := mngClient.MoveReadyClientsToPlay();
      assert forall o :: o in mngClient.Repr() ==> o in before || fresh(o);
    }

    method PingClient(i: nat)
      requires Valid() && i < |mngClient.clients| && PingDefined(mngClient.world, i)
      modifies mngClient`world, mngClient.clients
      ensures Valid() && mngClient.world == PingOne(old(mngClient.world), i)
    {
      hide ClientManager.Valid;
      var m := mngClient;
      var c := m.At(i);
      if c.state != New && c.nick == "" && c.sock > 0 {
        m.FlagBoth(i);
      } else if c.state == Pinged {
        m.SetStateOf(i, Lost);
        var stateLast := m.At(i).stateLast;
        if stateLast == PlayingOnTurn || stateLast == PlayingOnStand {
          var told := m.SendToOpponentOf(i);
        }
      } else if c.state == Lost {
        m.FlagToDisconnect(i);
      } else if c.state == Disconnected {
        m.CountDown(i);
      } else {
        m.SetStateOf(i, Pinged);
      }
    }

    /** One ping round. */
    method PingClients()
      requires Valid() && RoundDefined(mngClient.world)
      modifies mngClient`world, mngClient.clients
      ensures Valid() && mngClient.world == PingRound(old(mngClient.world))
    {
      ghost var w := mngClient.world;
      NobodyPinged(w);
      hide ClientManager.Valid, PingUpTo, PingOne, PingDefined;
      for client := 0 to |mngClient.clients|
        invariant Valid() && mngClient.clients == old(mngClient.clients)
        invariant mngClient.world == PingUpTo(w, client)
      {
        PingNext(w, client);
        PingStillDefined(w, client);
        PingClient(client);
      }
      EverybodyPinged(w);
    }
  }

  lemma NoSteps(w: World)
    ensures Exec(w, []) == Some(w)
  {
  }

  lemma PingStillDefined(w: World, k: nat)
    requires RoundDefined(w) && k < |w.clients|
    ensures PingDefined(PingUpTo(w, k), k)
  {
    assert PingDefined(w, k);
    assert PingUpTo(w, k).rooms == w.rooms && PingUpTo(w, k).clients[k] == w.clients[k];
  }
}
