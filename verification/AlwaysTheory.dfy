/** What holds in every run, whatever the clients send: no politeness is assumed, only that
    no dangling lookup was followed. */
module AlwaysTheory {
  import opened Rules
  import opened RulesTheory
  import opened MoveText
  import opened Session
  import opened Protocol
  import opened Abstraction
  import opened SessionTheory
  import opened RequestTheory
  import opened Codec
  import opened Passes
  import opened RunTheory

  // ----- Nicks and rooms

  ghost predicate NoneOver(rs: seq<RoomRec>) {
    forall r :: 0 <= r < |rs| ==> !rs[r].game.over
  }

  /** Nicks are distinct; room ids are in order and were given out; no finished game is kept. */
  ghost predicate Tidy(w: World) {
    NicksDistinct(w.clients) && RoomIdsOk(w) && NoneOver(w.rooms)
  }

  predicate SameNicks(cs: seq<ClientRec>, cs': seq<ClientRec>) {
    |cs'| == |cs| && forall k :: 0 <= k < |cs| ==> cs'[k].nick == cs[k].nick
  }

  lemma SameNicksDistinct(cs: seq<ClientRec>, cs': seq<ClientRec>)
    requires NicksDistinct(cs) && SameNicks(cs, cs')
    ensures NicksDistinct(cs')
  {
  }

  lemma DestroyShape(w: World, id: int, i: nat, j: nat)
    requires i < |w.clients| && j < |w.clients| && MayDestroy(w, id)
    ensures var w' := DestroyRoom(w, id, i, j);
      && SameNicks(w.clients, w'.clients) && w'.roomsTotal == w.roomsTotal
      && w'.rooms == if id == 0 then w.rooms else Without(w.rooms, FindRoom(w.rooms, id))
  {
  }

  lemma DestroyTidy(w: World, id: int, i: nat, j: nat)
    requires NicksDistinct(w.clients) && RoomIdsOk(w) && i < |w.clients| && j < |w.clients| && MayDestroy(w, id)
    requires forall r :: 0 <= r < |w.rooms| && w.rooms[r].id != id ==> !w.rooms[r].game.over
    requires id == 0 ==> NoneOver(w.rooms)
    ensures Tidy(DestroyRoom(w, id, i, j))
  {
    DestroyShape(w, id, i, j);
    hide DestroyRoom;
    SameNicksDistinct(w.clients, DestroyRoom(w, id, i, j).clients);
    if id != 0 {
      OthersTidy(w, FindRoom(w.rooms, id));
    }
  }

  lemma OthersTidy(w: World, r: nat)
    requires RoomIdsOk(w) && r < |w.rooms|
    requires forall k :: 0 <= k < |w.rooms| && w.rooms[k].id != w.rooms[r].id ==> !w.rooms[k].game.over
    ensures RoomIdsOk(w.(rooms := Without(w.rooms, r))) && NoneOver(Without(w.rooms, r))
  {
    DropTable(w, r);
  }

  lemma FollowTidy(w: World, id: int)
    requires NicksDistinct(w.clients) && RoomIdsOk(w) && HasRoom(w, id)
    requires HasNick(w, RoomGame(w, id).onTurn) && HasNick(w, RoomGame(w, id).onStand)
    requires forall r :: 0 <= r < |w.rooms| && w.rooms[r].id != id ==> !w.rooms[r].game.over
    ensures Tidy(FollowGame(w, id))
  {
    var g := RoomGame(w, id);
    var a, b := FindNick(w.clients, g.onTurn), FindNick(w.clients, g.onStand);
    var w' := TurnTo(w, a, b);
    SameNicksDistinct(w.clients, w'.clients);
    assert id != 0 by { RoomLookup(w, FindRoom(w.rooms, id)); }
    if g.over {
      DestroyTidy(w', id, a, b);
    } else {
      forall r | 0 <= r < |w.rooms| ensures !w.rooms[r].game.over {
        RoomLookup(w, r);
      }
    }
  }

  lemma MovedTidy(w: World, i: nat, coords: string)
    requires Tidy(w) && i < |w.clients| && IsMoveText(coords) && MoveDefined(w, i, coords)
    ensures Tidy(Moved(w, i, coords))
  {
    var id := w.clients[i].room;
    var g := RoomGame(w, id);
    if Legal(g, MoveOf(coords)) {
      var r := FindRoom(w.rooms, id);
      PutTable(w, r, Play(g, MoveOf(coords)));
      PlayerSwap(g, MoveOf(coords));
      hide Play, Legal;
      FollowTidy(WithGame(w, id, Play(g, MoveOf(coords))), id);
    }
  }

  lemma TakeOverTidy(w: World, i: nat, k: nat)
    requires Tidy(w) && i < |w.clients| && k < |w.clients| && w.clients[k].nick != ""
    ensures Tidy(TakeOver(w, i, k, w.clients[k].nick))
  {
    var cs, cs' := w.clients, TakeOver(w, i, k, w.clients[k].nick).clients;
    forall x, y | 0 <= x < y < |cs'| && cs'[x].nick != "" ensures cs'[x].nick != cs'[y].nick {
      assert x == i || cs'[x].nick == cs[x].nick;
      assert y == i || y == k || cs'[y].nick == cs[y].nick;
    }
  }

  lemma ConnectTidy(w: World, i: nat, nick: string)
    requires Tidy(w) && i < |w.clients| && nick != ""
    ensures Tidy(Connecting(w, i, nick))
  {
    var k := FindNickAndIp(w.clients, nick, w.clients[i].ip);
    if HasNick(w, nick) {
      if k < |w.clients| {
        TakeOverTidy(w, i, k);
        SameNicksDistinct(w.clients, Put(w, i, WithState(w.clients[i], w.clients[i].stateLast)).clients);
      }
    } else {
      var cs := w.clients[i := WithState(w.clients[i].(nick := nick), Waiting).(stateLast := Waiting)];
      assert NicksDistinct(cs);
    }
  }

  lemma HandleTidy(w: World, i: nat, rq: Request)
    requires Tidy(w) && StepDefined(w, DoServe(i, rq))
    ensures Tidy(Handle(w, i, rq))
  {
    var w' := Handle(w, i, rq);
    if Routed(w.clients[i].state, rq) {
      match rq
      case Connect(nick) => ConnectTidy(w, i, nick);
      case Move(coords) => MovedTidy(w, i, coords);
      case Leave =>
        DestroyTidy(w, w.clients[i].room, i, FindNick(w.clients, OpponentOf(w, w.clients[i])));
      case _ => SameNicksDistinct(w.clients, w'.clients);
    }
  }

  lemma EraseTidy(w: World, i: nat)
    requires Tidy(w) && i < |w.clients| && EraseDefined(w, i)
    ensures Tidy(Erase(w, i))
  {
    var c := w.clients[i];
    if LeavesGame(c) {
      var w1 := DestroyRoom(w, c.room, i, FindNick(w.clients, OpponentOf(w, c)));
      DestroyTidy(w, c.room, i, FindNick(w.clients, OpponentOf(w, c)));
      DropPlayers(w1.clients, i);
    } else {
      DropPlayers(w.clients, i);
    }
  }

  lemma SeatShape(w: World, id: int, i: nat, j: nat)
    requires i < |w.clients| && j < |w.clients|
    ensures SameNicks(w.clients, Seat(w, id, i, j).clients)
    ensures Seat(w, id, i, j).rooms == w.rooms && Seat(w, id, i, j).roomsTotal == w.roomsTotal
  {
  }

  lemma StartTidy(w: World, i: nat, j: nat)
    requires Tidy(w) && i < |w.clients| && j < |w.clients|
    ensures Tidy(StartGame(w, i, j))
  {
    hide Seat;
    var w1 := CreateRoom(w, w.clients[i].nick, w.clients[j].nick);
    AddTable(w, w.clients[i].nick, w.clients[j].nick);
    SeatShape(w1, w1.roomsTotal, i, j);
    SameNicksDistinct(w1.clients, StartGame(w, i, j).clients);
  }

  /** Every defined step keeps nicks distinct and the rooms tidy. */
  lemma StepTidy(w: World, s: Step)
    requires Tidy(w) && StepDefined(w, s)
    ensures Tidy(Apply(w, s))
  {
    match s
    case DoAccept(ip, sock) => AddUnnamed(w.clients, NewClient(ip, sock));
    case DoEvict(i) => DropPlayers(w.clients, i);
    case DoClose(i) => SameNicksDistinct(w.clients, Close(w, i).clients);
    case DoUnflag(i) => SameNicksDistinct(w.clients, Unflag(w, i).clients);
    case DoErase(i) => EraseTidy(w, i);
    case DoServe(i, rq) => HandleTidy(w, i, rq);
    case DoStart(i, j) => StartTidy(w, i, j);
  }

  lemma {:induction false} StepsTidy(w: World, ss: seq<Step>)
    requires Tidy(w) && Exec(w, ss).Some?
    ensures Tidy(Exec(w, ss).value)
    decreases |ss|
  {
    hide Tidy, Apply, StepDefined;
    if ss != [] {
      StepTidy(w, ss[0]);
      StepsTidy(Apply(w, ss[0]), ss[1..]);
    }
  }

  // ----- Disconnect flags and capacity

  predicate Unflagged(w: World, p: nat) {
    forall k :: 0 <= k < p && k < |w.clients| ==> !w.clients[k].toDisconnect
  }

  /** The loop over the clients ends with no client marked for disconnection, and lets
      nobody in. */
  lemma {:induction false} LoopResult(w: World, p: nat, events: map<int, Event>)
    requires p <= |w.clients| && Unflagged(w, p) && Exec(w, LoopSteps(w, p, events)).Some?
    ensures var w' := Exec(w, LoopSteps(w, p, events)).value;
      Unflagged(w', |w'.clients|) && |w'.clients| <= |w.clients|
    decreases |w.clients| - p, Flag(p < |w.clients| && w.clients[p].toDisconnect),
      Flag(p < |w.clients| && w.clients[p].sock >= 0)
  {
    hide CloseDefined, EraseDefined, Defined, Handle, MessageSteps, MessageAccepted, LoopSteps, Exec;
    if p == |w.clients| {
      LoopDone(w, p, events);
    } else {
      var c := w.clients[p];
      if c.toDisconnect {
        LoopFlagged(w, p, events);
        LoopResult(Unflag(Close(w, p), p), p, events);
      } else if c.toErase {
        LoopErased(w, p, events);
        EraseUnflagged(w, p);
        LoopResult(Erase(w, p), p, events);
      } else if c.sock < 0 || EventOf(events, c.sock) == Quiet {
        LoopSkipped(w, p, events);
        LoopResult(w, p + 1, events);
      } else if EventOf(events, c.sock).Message? {
        var buffer := EventOf(events, c.sock).buffer;
        LoopMessage(w, p, events, buffer);
        var w' := Exec(w, MessageSteps(w, p, buffer)).value;
        if MessageAccepted(w, p, buffer) {
          LoopResult(w', p + 1, events);
        } else {
          LoopResult(Close(w', p), p, events);
        }
      } else {
        LoopFailed(w, p, events);
        LoopResult(Close(w, p), p, events);
      }
    }
  }

  lemma EraseUnflagged(w: World, p: nat)
    requires p < |w.clients| && Unflagged(w, p)
    ensures Unflagged(Erase(w, p), p)
  {
    var c := w.clients[p];
    if LeavesGame(c) && EraseDefined(w, p) {
      DestroySameFlags(w, c.room, p, FindNick(w.clients, OpponentOf(w, c)));
    }
  }

  lemma {:induction false} PairsKeepFlags(w: World, p: nat)
    requires p <= |w.clients| && Unflagged(w, |w.clients|)
    ensures Exec(w, PairSteps(w, p)).Some?
    ensures var w' := Exec(w, PairSteps(w, p)).value;
      |w'.clients| == |w.clients| && Unflagged(w', |w'.clients|)
    decreases |w.clients| - p
  {
    hide PairSteps, NextReady, StartGame;
    var i := NextReady(w.clients, p);
    if i == |w.clients| || NextReady(w.clients, i + 1) == |w.clients| {
      PairStepsNone(w, p);
    } else {
      var j := NextReady(w.clients, i + 1);
      StartUnflagged(w, i, j);
      PairStepsRun(w, p, i, j);
      PairsKeepFlags(StartGame(w, i, j), j + 1);
    }
  }

  lemma StartUnflagged(w: World, i: nat, j: nat)
    requires i < |w.clients| && j < |w.clients| && Unflagged(w, |w.clients|)
    ensures Unflagged(StartGame(w, i, j), |w.clients|)
  {
  }

  /** A new connection becomes one more client at the end, without a name, in the lobby, with
      a full count of pings and no flag; an invalid socket becomes none. */
  lemma ArrivalExactly(w: World, input: Input)
    ensures AfterArrival(w, input) ==
      if input.arrival.Some? && input.arrival.value.1 > 0
      then w.(clients := w.clients + [ClientRec("", input.arrival.value.0, input.arrival.value.1, 0, New, New, 2, false, false)])
      else w
  {
  }

  /** The client at `i` may go before the one at `k`: it has fewer pings left, or as many and
      is not behind it. */
  predicate GoesBefore(cs: seq<ClientRec>, i: nat, k: nat)
    requires i < |cs| && k < |cs|
  {
    cs[k].state == Disconnected ==> cs[i].pings < cs[k].pings || (cs[i].pings == cs[k].pings && i <= k)
  }

  /** Nobody is evicted or turned away while there is room.  On a full server a disconnected
      client goes that may go before all others, and when there is none the last client. */
  lemma CapacityExactly(w: World, max: int)
    requires max >= 1
    ensures |w.clients| != max ==> CapacitySteps(w, max) == []
    ensures |w.clients| == max && (forall k :: 0 <= k < max ==> w.clients[k].state != Disconnected) ==>
      CapacitySteps(w, max) == [DoClose(max - 1), DoErase(max - 1)]
    ensures |w.clients| == max && (exists k :: 0 <= k < max && w.clients[k].state == Disconnected) ==>
      exists i: nat :: i < max && CapacitySteps(w, max) == [DoEvict(i)]
        && w.clients[i].state == Disconnected && forall k :: 0 <= k < max ==> GoesBefore(w.clients, i, k)
  {
    if |w.clients| == max && exists k :: 0 <= k < max && w.clients[k].state == Disconnected {
      var i := Longest(w.clients);
      assert SomeDisconnected(w.clients);
      assert CapacitySteps(w, max) == [DoEvict(i)];
      assert forall k :: 0 <= k < max ==> GoesBefore(w.clients, i, k);
    }
  }

  /** A client that was disconnected at a ping round goes before one that was not: whoever is
      chosen after the second has been cut off too, it is not the second. */
  lemma LongerGoneGoesFirst(w: World, a: nat, b: nat, i: nat)
    requires a < |w.clients| && w.clients[a].state == Disconnected && w.clients[a].sock < 0 && w.clients[a].pings <= 2
    requires b < |w.clients| && w.clients[b].state != Disconnected && w.clients[b].sock >= 0 && w.clients[b].pings == 2
    requires LongestDisconnected(Close(PingRound(w), b).clients, i)
    ensures i != b
  {
    var cs := Close(PingRound(w), b).clients;
    assert cs[a].state == Disconnected && cs[a].pings == w.clients[a].pings - 1 && cs[b].pings == 2;
  }

  /** On a full server with nobody disconnected, the client that just came is the one that is
      turned away: nothing remains of it. */
  lemma RefusedIsNewest(w: World, input: Input, max: int)
    requires Arrives(input) && |w.clients| == max - 1 && !SomeDisconnected(w.clients)
    ensures Exec(AfterArrival(w, input), CapacitySteps(AfterArrival(w, input), max)) == Some(w)
  {
    var w1 := AfterArrival(w, input);
    var p := |w.clients|;
    assert forall k :: 0 <= k < p ==> w1.clients[k] == w.clients[k];
    assert !SomeDisconnected(w1.clients);
    assert w1.clients[p] == NewClient(input.arrival.value.0, input.arrival.value.1);
    ExecOne(w1, DoClose(p));
    ExecTwo(w1, DoClose(p), DoErase(p));
    assert Without(Close(w1, p).clients, p) == w.clients;
  }

  /** With room to spare before a pass, the capacity check succeeds and leaves room to
      spare. */
  lemma CapacityKept(w: World, input: Input, max: int)
    requires |w.clients| < max
    requires Exec(AfterArrival(w, input), CapacitySteps(AfterArrival(w, input), max)).Some?
    ensures |Exec(AfterArrival(w, input), CapacitySteps(AfterArrival(w, input), max)).value.clients| < max
  {
    var w1 := AfterArrival(w, input);
    if |w1.clients| == max {
      if SomeDisconnected(w1.clients) {
        EvictSteps(w1, max);
      } else {
        assert forall k :: 0 <= k < |w.clients| ==> w1.clients[k] == w.clients[k];
        RefusedIsNewest(w, input, max);
      }
    } else {
      assert CapacitySteps(w1, max) == [];
    }
  }

  /** After every update pass there is room for one more client, so testing for equality with
      the maximum is enough, and no client is left marked for disconnection. */
  lemma PassResult(w: World, input: Input, max: int)
    requires |w.clients| < max && PassDefined(w, input, max)
    ensures |Pass(w, input, max).clients| < max
    ensures Unflagged(Pass(w, input, max), |Pass(w, input, max).clients|)
  {
    hide PassDefined, Pass, Exec, LoopSteps, CapacitySteps, PairSteps;
    PassPhases(w, input, max);
    CapacityKept(w, input, max);
    var w1 := Exec(AfterArrival(w, input), CapacitySteps(AfterArrival(w, input), max)).value;
    LoopResult(w1, 0, input.events);
    PairsKeepFlags(Exec(w1, LoopSteps(w1, 0, input.events)).value, 0);
  }

  // ----- Whole runs

  lemma RoundTidy(w: World)
    requires Tidy(w)
    ensures Tidy(PingRound(w)) && |PingRound(w).clients| == |w.clients|
  {
    SameNicksDistinct(w.clients, PingRound(w).clients);
  }

  /** In every run, however clients behave: distinct nicks, tidy rooms, and room for one
      more client after every pass. */
  lemma {:induction false} AlwaysTidy(w: World, ts: seq<Turn>, max: int)
    requires Tidy(w) && |w.clients| < max && Go(w, ts, max).Some?
    ensures Tidy(Go(w, ts, max).value) && |Go(w, ts, max).value.clients| < max
    decreases |ts|
  {
    if ts != [] {
      match ts[0]
      case PingTurn =>
        RoundTidy(w);
        AlwaysTidy(PingRound(w), ts[1..], max);
      case UpdateTurn(input) =>
        PassResult(w, input, max);
        StepsTidy(w, PassSteps(w, input, max));
        AlwaysTidy(Pass(w, input, max), ts[1..], max);
    }
  }

  // ----- Rooms created, stored and destroyed

  /** The rooms given out grow by the games that `es` starts, and the rooms stored by those
      less the games that `es` ends. */
  ghost predicate Counted(w: World, es: seq<Visible>, w': World) {
    && w'.roomsTotal == w.roomsTotal + Openings(es)
    && (Tidy(w) ==> |w'.rooms| == |w.rooms| + Openings(es) - Endings(es))
  }

  /** A room that is found is not the lobby, so it is really destroyed. */
  lemma DestroyCounts(w: World, id: int, i: nat, j: nat)
    requires i < |w.clients| && j < |w.clients| && HasRoom(w, id)
    ensures DestroyRoom(w, id, i, j).roomsTotal == w.roomsTotal
    ensures RoomIdsOk(w) ==> |DestroyRoom(w, id, i, j).rooms| == |w.rooms| - 1
  {
    DestroyShape(w, id, i, j);
    hide DestroyRoom;
  }

  lemma FollowCounts(w: World, id: int)
    requires HasRoom(w, id) && HasNick(w, RoomGame(w, id).onTurn) && HasNick(w, RoomGame(w, id).onStand)
    ensures FollowGame(w, id).roomsTotal == w.roomsTotal
    ensures RoomIdsOk(w) ==> |FollowGame(w, id).rooms| == |w.rooms| - if RoomGame(w, id).over then 1 else 0
  {
    hide DestroyRoom;
    var g := RoomGame(w, id);
    var a, b := FindNick(w.clients, g.onTurn), FindNick(w.clients, g.onStand);
    DestroyCounts(TurnTo(w, a, b), id, a, b);
  }

  lemma WithGameCounts(w: World, id: int, g: Game)
    requires HasRoom(w, id)
    ensures var w' := WithGame(w, id, g);
      |w'.rooms| == |w.rooms| && w'.roomsTotal == w.roomsTotal && (RoomIdsOk(w) ==> RoomIdsOk(w'))
  {
    if RoomIdsOk(w) { PutTable(w, FindRoom(w.rooms, id), g); }
  }

  lemma MoveCounts(w: World, i: nat, coords: string)
    requires i < |w.clients| && IsMoveText(coords) && MoveDefined(w, i, coords)
    ensures Counted(w, SeenMove(w, w.clients[i], coords), Moved(w, i, coords))
  {
    var id := w.clients[i].room;
    var g := RoomGame(w, id);
    CountOne(Passing(id));
    CountTwo(Passing(id), Ending(id));
    if Legal(g, MoveOf(coords)) {
      PlayerSwap(g, MoveOf(coords));
      hide Legal, Play, FollowGame, MoveOf, WithGame, Counted;
      WithGameCounts(w, id, Play(g, MoveOf(coords)));
      FollowCounts(WithGame(w, id, Play(g, MoveOf(coords))), id);
    }
  }

  lemma ConnectCounts(w: World, i: nat, nick: string)
    requires i < |w.clients|
    ensures Connecting(w, i, nick).rooms == w.rooms && Connecting(w, i, nick).roomsTotal == w.roomsTotal
    ensures var es := SeenConnecting(w, i, nick); Openings(es) == 0 && Endings(es) == 0
  {
    hide HasNick, FreeToName, Steady;
    CountOne(Arrival(nick));
    CountOne(Departure(w.clients[i].nick));
    CountOne(Choice(w.clients[i].nick, w.clients[i].stateLast));
  }

  lemma RequestCounts(w: World, i: nat, rq: Request)
    requires StepDefined(w, DoServe(i, rq))
    ensures Counted(w, SeenRequest(w, i, rq), Handle(w, i, rq))
  {
    hide DestroyRoom, Moved, SeenMove, MoveDefined, Connecting, SeenConnecting;
    var c := w.clients[i];
    if Routed(c.state, rq) {
      match rq
      case Connect(nick) => ConnectCounts(w, i, nick);
      case GetReady => CountOne(Choice(c.nick, Ready));
      case Pong => CountOne(Choice(c.nick, c.stateLast));
      case Move(coords) => MoveCounts(w, i, coords);
      case Leave =>
        CountOne(Ending(c.room));
        DestroyCounts(w, c.room, i, FindNick(w.clients, OpponentOf(w, c)));
      case _ =>
    }
  }

  lemma EraseCounts(w: World, i: nat)
    requires i < |w.clients| && EraseDefined(w, i)
    ensures Counted(w, SeenErasing(w.clients[i]), Erase(w, i))
  {
    hide DestroyRoom;
    var c := w.clients[i];
    CountOne(Departure(c.nick));
    CountTwo(Ending(c.room), Departure(c.nick));
    if LeavesGame(c) { DestroyCounts(w, c.room, i, FindNick(w.clients, OpponentOf(w, c))); }
  }

  lemma StepCounts(w: World, s: Step)
    requires StepDefined(w, s)
    ensures Counted(w, SeenStep(w, s), Apply(w, s))
  {
    hide Handle, Erase, SeenRequest, SeenErasing;
    match s
    case DoErase(i) => EraseCounts(w, i);
    case DoServe(i, rq) => RequestCounts(w, i, rq);
    case DoEvict(i) => CountOne(Departure(w.clients[i].nick));
    case DoStart(i, j) => CountOne(SeenStarting(w, i, j)[0]);
    case _ =>
  }

  lemma CountedAppend(w: World, es: seq<Visible>, w1: World, fs: seq<Visible>, w2: World)
    requires Counted(w, es, w1) && Counted(w1, fs, w2) && (Tidy(w) ==> Tidy(w1))
    ensures Counted(w, es + fs, w2)
  {
    CountsAppend(es, fs);
  }

  lemma {:induction false} StepsCounts(w: World, ss: seq<Step>)
    requires Exec(w, ss).Some?
    ensures Counted(w, SeenSteps(w, ss), Exec(w, ss).value)
    decreases |ss|
  {
    hide SeenStep, Apply, StepDefined, Tidy, Counted;
    if ss == [] {
      NothingCounted(w);
    } else {
      var w1 := Apply(w, ss[0]);
      StepCounts(w, ss[0]);
      if Tidy(w) { StepTidy(w, ss[0]); }
      StepsCounts(w1, ss[1..]);
      CountedAppend(w, SeenStep(w, ss[0]), w1, SeenSteps(w1, ss[1..]), Exec(w, ss).value);
    }
  }

  lemma NothingCounted(w: World)
    ensures Counted(w, [], w)
  {
  }

  lemma PassCounts(w: World, input: Input, max: int)
    requires PassDefined(w, input, max)
    ensures Counted(w, SeenSteps(w, PassSteps(w, input, max)), Pass(w, input, max))
    ensures Tidy(w) ==> Tidy(Pass(w, input, max))
  {
    hide PassSteps, SeenSteps, Counted, Tidy;
    StepsCounts(w, PassSteps(w, input, max));
    if Tidy(w) { StepsTidy(w, PassSteps(w, input, max)); }
  }

  lemma RoundCounts(w: World)
    ensures Counted(w, [], PingRound(w))
    ensures Tidy(w) ==> Tidy(PingRound(w))
  {
    if Tidy(w) { RoundTidy(w); }
  }

  lemma {:induction false} RunCounts(w: World, ts: seq<Turn>, max: int)
    requires Go(w, ts, max).Some?
    ensures Counted(w, SeenRun(w, ts, max), Go(w, ts, max).value)
    decreases |ts|
  {
    hide PassSteps, SeenSteps, Exec, Counted, Tidy, PingRound, Pass, PassDefined;
    if ts == [] {
      NothingCounted(w);
    } else {
      var es, w' := SeenRun(w, ts, max), Go(w, ts, max).value;
      match ts[0]
      case PingTurn =>
        var w1 := PingRound(w);
        RoundCounts(w);
        RunCounts(w1, ts[1..], max);
        assert [] + es == es;
        CountedAppend(w, [], w1, es, w');
      case UpdateTurn(input) =>
        var w1 := Pass(w, input, max);
        PassCounts(w, input, max);
        RunCounts(w1, ts[1..], max);
        CountedAppend(w, SeenSteps(w, PassSteps(w, input, max)), w1, SeenRun(w1, ts[1..], max), w');
    }
  }

  /** In every run, however clients behave, every game that started opened a room, every game
      that ended destroyed one, and all others are still stored. */
  lemma RoomsBalance(w: World, ts: seq<Turn>, max: int)
    requires Tidy(w) && Go(w, ts, max).Some?
    ensures var w' := Go(w, ts, max).value; var es := SeenRun(w, ts, max);
      && w'.roomsTotal == w.roomsTotal + Openings(es)
      && |w'.rooms| == |w.rooms| + Openings(es) - Endings(es)
  {
    hide Tidy;
    RunCounts(w, ts, max);
  }
}
