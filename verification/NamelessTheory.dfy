/** What becomes of a connection that never takes a name: it is pinged once, marked at the
    second ping, and gone after the next pass; and nobody else can touch it before. */
module NamelessTheory {
  import opened Rules
  import opened MoveText
  import opened Session
  import opened Abstraction
  import opened SessionTheory
  import opened RequestTheory
  import opened Codec
  import opened Passes
  import opened RunTheory
  import opened AlwaysTheory
  import opened VisitTheory
  import opened Scripts
  import FailureTheory

  // ----- One ping round, client by client

  /** What a ping round does to each client.  Marked for erasing are those with an open socket
      that have no name although they have been pinged before, and those whose count of pings
      ends. */
  lemma RoundExactly(w: World, i: nat)
    requires i < |w.clients|
    ensures |PingRound(w).clients| == |w.clients|
    ensures var c, c' := w.clients[i], PingRound(w).clients[i];
      if c.nick == "" && c.sock > 0 && c.state != New then c' == c.(toDisconnect := true, toErase := true)
      else match c.state
        case Pinged => c' == c.(state := Lost)
        case Lost => c' == c.(toDisconnect := true)
        case Disconnected => c' == c.(pings := c.pings - 1, toErase := c.toErase || c.pings == 1)
        case _ => c' == c.(state := Pinged, stateLast := c.state)
  {
  }

  // ----- Steps of others

  /** Where the client at `i` is after a step that leaves it alone. */
  function NewPlace(i: nat, s: Step): nat {
    match s
    case DoEvict(j) => if j < i then i - 1 else i
    case DoErase(j) => if j < i then i - 1 else i
    case _ => i
  }

  /** The step is not about the client at `i`, and hands out another socket. */
  predicate LeavesAlone(s: Step, i: nat, sock: int) {
    match s
    case DoAccept(ip, other) => other != sock
    case DoClose(j) => j != i
    case DoUnflag(j) => j != i
    case DoErase(j) => j != i
    case DoServe(j, rq) => j != i
    case _ => true
  }

  /** The client at `i` is the only one with the socket, and it has no name. */
  predicate Nobody(w: World, i: nat, sock: int) {
    HasSocket(w, i, sock) && sock > 0 && w.clients[i].nick == ""
  }

  lemma NamedAtTable(w: World, j: nat)
    requires WorldOk(w) && j < |w.clients| && w.clients[j].nick != "" && w.clients[j].room != 0
    ensures Seated(w, w.clients[j]) && HasNick(w, OpponentOf(w, w.clients[j])) && OpponentOf(w, w.clients[j]) != ""
  {
    AtTable(w, j);
  }

  lemma TurnLeavesAlone(w: World, r: nat, m: nat, s: nat, g: Game, i: nat)
    requires m < |w.clients| && s < |w.clients| && r < |w.rooms| && i < |w.clients| && i != m && i != s
    ensures |AfterMove(w, r, m, s, g).clients| == |w.clients| && AfterMove(w, r, m, s, g).clients[i] == w.clients[i]
  {
  }

  lemma MoveLeavesAlone(w: World, j: nat, coords: string, i: nat)
    requires WorldOk(w) && j < |w.clients| && i < |w.clients| && IsMoveText(coords)
    requires w.clients[j].nick != "" && w.clients[j].room != 0 && w.clients[i].nick == "" && MoveDefined(w, j, coords)
    ensures |Moved(w, j, coords).clients| == |w.clients| && Moved(w, j, coords).clients[i] == w.clients[i]
  {
    hide Legal, Play, GamesOk, AfterMove, FollowGame, TableOf, AtBoard;
    var r, m, s := FindBoard(w, j);
    NamedBoth(w, r, m, s);
    if Legal(w.rooms[r].game, MoveOf(coords)) {
      MovedResult(w, j, coords, r, m, s);
      TurnLeavesAlone(w, r, m, s, Play(w.rooms[r].game, MoveOf(coords)), i);
    }
  }

  lemma NamedBoth(w: World, r: nat, m: nat, s: nat)
    requires AtBoard(w, r, m, s)
    ensures r < |w.rooms| && m < |w.clients| && s < |w.clients| && w.clients[m].nick != "" && w.clients[s].nick != ""
  {
  }

  lemma ConnectLeavesAlone(w: World, j: nat, nick: string, i: nat)
    requires j < |w.clients| && i < |w.clients| && i != j && nick != "" && w.clients[i].nick == ""
    ensures |Connecting(w, j, nick).clients| == |w.clients| && Connecting(w, j, nick).clients[i] == w.clients[i]
  {
    hide HasNick, FreeToName;
  }

  lemma DestroyLeavesAlone(w: World, id: int, a: nat, b: nat, i: nat)
    requires a < |w.clients| && b < |w.clients| && i < |w.clients| && i != a && i != b
    ensures |DestroyRoom(w, id, a, b).clients| == |w.clients| && DestroyRoom(w, id, a, b).clients[i] == w.clients[i]
  {
  }

  lemma ServeLeavesAlone(w: World, j: nat, rq: Request, i: nat)
    requires WorldOk(w) && j < |w.clients| && i < |w.clients| && i != j && w.clients[i].nick == ""
    requires Alive(w.clients[j]) && WellFormed(rq) && Safe(w, j, rq)
    ensures Defined(w, j, rq) && |Handle(w, j, rq).clients| == |w.clients| && Handle(w, j, rq).clients[i] == w.clients[i]
  {
    HandleExactly(w, j, rq);
    if Routed(w.clients[j].state, rq) {
      match rq
      case Connect(nick) => ConnectLeavesAlone(w, j, nick, i);
      case Move(coords) =>
        PlaysSomewhere(w, j);
        MoveLeavesAlone(w, j, coords, i);
      case Leave =>
        PlaysSomewhere(w, j);
        NamedAtTable(w, j);
        DestroyLeavesAlone(w, w.clients[j].room, j, FindNick(w.clients, OpponentOf(w, w.clients[j])), i);
      case _ =>
    }
  }

  lemma PlaysSomewhere(w: World, j: nat)
    requires WorldOk(w) && j < |w.clients| && Alive(w.clients[j]) && Playing(Logical(w.clients[j]))
    ensures w.clients[j].nick != "" && w.clients[j].room != 0
  {
    if w.clients[j].nick == "" || w.clients[j].room == 0 { NoGame(w, j); }
  }

  lemma NobodyIsIdle(w: World, i: nat, sock: int)
    requires WorldOk(w) && Nobody(w, i, sock)
    ensures w.clients[i].state != Disconnected && w.clients[i].state != Ready && w.clients[i].room == 0
  {
    assert ClientOk(w.clients[i]);
  }

  /** A nameless client is where it was, as it was, and still the only one with its socket. */
  predicate Untouched(w: World, i: nat, sock: int, w': World, i': nat) {
    Nobody(w, i, sock) && Nobody(w', i', sock) && w'.clients[i'] == w.clients[i]
  }

  lemma OneChanged(w: World, w': World, i: nat, sock: int)
    requires Nobody(w, i, sock) && |w'.clients| == |w.clients| && w'.clients[i] == w.clients[i]
    requires forall k :: 0 <= k < |w.clients| ==> w'.clients[k].sock == w.clients[k].sock || w'.clients[k].sock < 0
    ensures Untouched(w, i, sock, w', i)
  {
  }

  lemma DroppedUntouched(w: World, j: nat, i: nat, sock: int)
    requires Nobody(w, i, sock) && j < |w.clients| && j != i
    ensures Untouched(w, i, sock, Dropped(w, j), NewPlace(i, DoErase(j)))
  {
    var w', i' := Dropped(w, j), NewPlace(i, DoErase(j));
    forall k | 0 <= k < |w'.clients| ensures w'.clients[k].sock == sock <==> k == i' {
      assert w'.clients[k] == w.clients[if k < j then k else k + 1];
    }
  }

  lemma DestroyUntouched(w: World, j: nat, i: nat, sock: int)
    requires WorldOk(w) && Nobody(w, i, sock) && j < |w.clients| && j != i && LeavesGame(w.clients[j])
    ensures Seated(w, w.clients[j]) && HasNick(w, OpponentOf(w, w.clients[j]))
    ensures Untouched(w, i, sock, DestroyRoom(w, w.clients[j].room, j, FindNick(w.clients, OpponentOf(w, w.clients[j]))), i)
  {
    var c := w.clients[j];
    NamedAtTable(w, j);
    hide DestroyRoom, WorldOk;
    var m := FindNick(w.clients, OpponentOf(w, c));
    DestroyLeavesAlone(w, c.room, j, m, i);
    DestroySameFlags(w, c.room, j, m);
    OneChanged(w, DestroyRoom(w, c.room, j, m), i, sock);
  }

  lemma ErasedUntouched(w: World, j: nat, i: nat, sock: int)
    requires WorldOk(w) && Nobody(w, i, sock) && j < |w.clients| && j != i && EraseDefined(w, j)
    ensures Untouched(w, i, sock, Erase(w, j), NewPlace(i, DoErase(j)))
  {
    hide WorldOk, DestroyRoom, Dropped, Untouched, Nobody, NewPlace;
    var c := w.clients[j];
    if LeavesGame(c) {
      DestroyUntouched(w, j, i, sock);
      var w1 := DestroyRoom(w, c.room, j, FindNick(w.clients, OpponentOf(w, c)));
      StillNobody(w, i, sock, w1, i);
      SameLength(w, c.room, j, FindNick(w.clients, OpponentOf(w, c)));
      DroppedUntouched(w1, j, i, sock);
      UntouchedTwice(w, i, sock, w1, i, Erase(w, j), NewPlace(i, DoErase(j)));
    } else {
      DroppedUntouched(w, j, i, sock);
    }
  }

  lemma SameLength(w: World, id: int, a: nat, b: nat)
    requires a < |w.clients| && b < |w.clients|
    ensures |DestroyRoom(w, id, a, b).clients| == |w.clients|
  {
  }

  lemma StartUntouched(w: World, a: nat, b: nat, i: nat, sock: int)
    requires WorldOk(w) && Nobody(w, i, sock) && BothReady(w, a, b)
    ensures Untouched(w, i, sock, StartGame(w, a, b), i)
  {
    NobodyIsIdle(w, i, sock);
    StartResult(w, a, b);
    OneChanged(w, Started(w, a, b), i, sock);
  }

  /** Steps that concern one connection. */
  lemma ConnectionUntouched(w: World, s: Step, i: nat, sock: int)
    requires WorldOk(w) && Nobody(w, i, sock) && Scheduled(w, s) && LeavesAlone(s, i, sock) && StepDefined(w, s)
    requires s.DoAccept? || s.DoClose? || s.DoUnflag?
    ensures Untouched(w, i, sock, Apply(w, s), i)
  {
    hide WorldOk, CloseDefined;
  }

  lemma StepUntouched(w: World, s: Step, i: nat, sock: int)
    requires WorldOk(w) && Nobody(w, i, sock) && Scheduled(w, s) && Polite(w, s) && LeavesAlone(s, i, sock)
    ensures StepDefined(w, s) && Untouched(w, i, sock, Apply(w, s), NewPlace(i, s))
  {
    hide WorldOk, EraseDefined, CloseDefined, Erase, Handle, StartGame, Safe, Defined, Dropped, Accept,
      Close, Unflag, Untouched;
    StepExactly(w, s);
    NobodyIsIdle(w, i, sock);
    match s
    case DoEvict(j) => DroppedUntouched(w, j, i, sock);
    case DoErase(j) => ErasedUntouched(w, j, i, sock);
    case DoServe(j, rq) =>
      ServeLeavesAlone(w, j, rq, i);
      HandleSameFlags(w, j, rq);
      OneChanged(w, Handle(w, j, rq), i, sock);
    case DoStart(a, b) => StartUntouched(w, a, b, i, sock);
    case _ => ConnectionUntouched(w, s, i, sock);
  }

  /** Two steps, or many, of which none touches the client. */
  lemma UntouchedTwice(w: World, i: nat, sock: int, w1: World, i1: nat, w2: World, i2: nat)
    requires Untouched(w, i, sock, w1, i1) && Untouched(w1, i1, sock, w2, i2)
    ensures Untouched(w, i, sock, w2, i2)
  {
  }

  lemma {:induction false} ServesUntouched(w: World, j: nat, rqs: seq<Request>, i: nat, sock: int)
    requires WorldOk(w) && Nobody(w, i, sock) && j < |w.clients| && j != i && Alive(w.clients[j]) && AllWellFormed(rqs)
    requires AllPolite(w, ServeSteps(w, j, rqs))
    ensures Exec(w, ServeSteps(w, j, rqs)).Some?
    ensures Untouched(w, i, sock, Exec(w, ServeSteps(w, j, rqs)).value, i)
    decreases |rqs|
  {
    hide WorldOk, Handle, Defined, Safe, Alive, Untouched, Nobody;
    var ss := ServeSteps(w, j, rqs);
    if rqs == [] {
      NothingUntouched(w, i, sock);
    } else {
      var s := DoServe(j, rqs[0]);
      assert ss[0] == s;
      SafeKeepsAlive(w, j, rqs[0]);
      var w1 := Handle(w, j, rqs[0]);
      HandleExactly(w, j, rqs[0]);
      StepUntouched(w, s, i, sock);
      if Accepted(w, j, rqs[0]) {
        assert ss[1..] == ServeSteps(w1, j, rqs[1..]);
        StillNobody(w, i, sock, w1, i);
        ServesUntouched(w1, j, rqs[1..], i, sock);
        UntouchedTwice(w, i, sock, w1, i, Exec(w, ss).value, i);
      } else {
        assert ss[1..] == [];
      }
    }
  }

  lemma NothingUntouched(w: World, i: nat, sock: int)
    requires Nobody(w, i, sock)
    ensures Untouched(w, i, sock, w, i)
  {
  }

  lemma StillNobody(w: World, i: nat, sock: int, w': World, i': nat)
    requires Untouched(w, i, sock, w', i')
    ensures Nobody(w', i', sock) && i' < |w'.clients| && w'.clients[i'] == w.clients[i]
  {
  }

  lemma MessageUntouched(w: World, j: nat, buffer: string, i: nat, sock: int)
    requires WorldOk(w) && Nobody(w, i, sock) && j < |w.clients| && j != i && Alive(w.clients[j])
    requires AllPolite(w, MessageSteps(w, j, buffer))
    ensures Exec(w, MessageSteps(w, j, buffer)).Some?
    ensures Untouched(w, i, sock, Exec(w, MessageSteps(w, j, buffer)).value, i)
  {
    hide WorldOk, Untouched, Nobody, ServeSteps, IsValidFormat, Alive;
    if IsValidFormat(buffer) {
      RequestsWellFormed(buffer);
      ServesUntouched(w, j, Requests(buffer), i, sock);
    } else {
      NothingUntouched(w, i, sock);
    }
  }

  // ----- The loop passes by a client from which nothing comes

  predicate Unmarked(c: ClientRec) {
    !c.toDisconnect && !c.toErase
  }

  /** Closing another client and clearing its flag. */
  lemma FlaggedUntouched(w: World, p: nat, events: map<int, Event>, i: nat, sock: int)
    requires WorldOk(w) && p < |w.clients| && w.clients[p].toDisconnect && Nobody(w, i, sock) && i != p
    requires AllPolite(w, LoopSteps(w, p, events))
    ensures CloseDefined(w, p)
    ensures var w2 := Unflag(Close(w, p), p);
      && WorldOk(w2) && AllPolite(w2, LoopSteps(w2, p, events)) && Untouched(w, i, sock, w2, i)
  {
    StepDefinedWhenOk(w, p);
    FlaggedSteps(w, p, events);
    var w1 := Close(w, p);
    var w2 := Unflag(w1, p);
    hide WorldOk, LoopSteps, CloseDefined, Close, Unflag, AllPolite, Untouched, Nobody;
    StepThen(w, DoClose(p), [DoUnflag(p)] + LoopSteps(w2, p, events));
    StepUntouched(w, DoClose(p), i, sock);
    StillNobody(w, i, sock, w1, i);
    StepThen(w1, DoUnflag(p), LoopSteps(w2, p, events));
    StepUntouched(w1, DoUnflag(p), i, sock);
    UntouchedTwice(w, i, sock, w1, i, w2, i);
  }

  lemma OtherErased(w: World, p: nat, events: map<int, Event>, i: nat, sock: int)
    requires WorldOk(w) && p < |w.clients| && !w.clients[p].toDisconnect && w.clients[p].toErase
    requires Nobody(w, i, sock) && i != p
    requires AllPolite(w, LoopSteps(w, p, events))
    ensures EraseDefined(w, p)
    ensures var w1 := Erase(w, p);
      && WorldOk(w1) && AllPolite(w1, LoopSteps(w1, p, events)) && Untouched(w, i, sock, w1, NewPlace(i, DoErase(p)))
  {
    EraseSteps(w, p, events);
    hide WorldOk, LoopSteps, EraseDefined, Erase, AllPolite, Untouched, Nobody;
    StepThen(w, DoErase(p), LoopSteps(Erase(w, p), p, events));
    StepUntouched(w, DoErase(p), i, sock);
  }

  lemma OtherClosed(w: World, p: nat, events: map<int, Event>, i: nat, sock: int)
    requires WorldOk(w) && p < |w.clients| && !w.clients[p].toDisconnect && w.clients[p].sock >= 0
    requires Nobody(w, i, sock) && i != p
    requires AllPolite(w, CloseAndGoOn(w, p, events))
    ensures CloseDefined(w, p)
    ensures var w1 := Close(w, p);
      && WorldOk(w1) && AllPolite(w1, LoopSteps(w1, p, events)) && Untouched(w, i, sock, w1, i)
  {
    StepDefinedWhenOk(w, p);
    assert CloseAndGoOn(w, p, events) == [DoClose(p)] + LoopSteps(Close(w, p), p, events);
    hide WorldOk, LoopSteps, CloseDefined, Close, AllPolite, Untouched, Nobody, CloseAndGoOn;
    StepThen(w, DoClose(p), LoopSteps(Close(w, p), p, events));
    StepUntouched(w, DoClose(p), i, sock);
  }

  lemma OtherServed(w: World, p: nat, events: map<int, Event>, buffer: string, i: nat, sock: int)
    requires WorldOk(w) && Served(w, p) && EventOf(events, w.clients[p].sock) == Message(buffer)
    requires Nobody(w, i, sock) && i != p
    requires AllPolite(w, LoopSteps(w, p, events))
    ensures Exec(w, MessageSteps(w, p, buffer)).Some?
    ensures var w1 := Exec(w, MessageSteps(w, p, buffer)).value;
      && WorldOk(w1) && SameFlags(w, w1) && Untouched(w, i, sock, w1, i)
      && AllPolite(w1, AfterMessage(w1, p, events, MessageAccepted(w, p, buffer)))
  {
    hide WorldOk, LoopSteps, MessageSteps, MessageAccepted, AllPolite, Untouched, Nobody, CloseAndGoOn, Exec,
      SameFlags, AfterMessage;
    var ss := MessageSteps(w, p, buffer);
    MessageFirst(w, p, events, buffer);
    var rest := LoopSteps(w, p, events)[|ss|..];
    assert LoopSteps(w, p, events) == ss + rest;
    PoliteAppend(w, ss, rest);
    MessageThen(w, p, events, buffer);
    MessageUntouched(w, p, buffer, i, sock);
  }

  /** The loop, from any position on, leaves a nameless client alone that is not marked and
      from whose socket nothing comes. */
  lemma {:induction false} LoopUntouched(w: World, p: nat, events: map<int, Event>, i: nat, sock: int)
    returns (i': nat)
    requires WorldOk(w) && AllPolite(w, LoopSteps(w, p, events))
    requires Nobody(w, i, sock) && Unmarked(w.clients[i]) && EventOf(events, sock) == Quiet
    ensures Exec(w, LoopSteps(w, p, events)).Some?
    ensures Untouched(w, i, sock, Exec(w, LoopSteps(w, p, events)).value, i')
    decreases |w.clients| - p, Flag(p < |w.clients| && w.clients[p].toDisconnect),
      Flag(p < |w.clients| && w.clients[p].sock >= 0)
  {
    hide WorldOk, AllPolite, LoopSteps, CloseAndGoOn, Exec, Erase, EraseDefined, CloseDefined, MessageSteps,
      MessageAccepted, Untouched;
    StepsRun(w, LoopSteps(w, p, events), p, events);
    var w' := Exec(w, LoopSteps(w, p, events)).value;
    if p >= |w.clients| {
      LoopDone(w, p, events);
      i' := i;
      NothingUntouched(w, i, sock);
    } else if w.clients[p].toDisconnect {
      FlaggedUntouched(w, p, events, i, sock);
      LoopFlagged(w, p, events);
      var w2 := Unflag(Close(w, p), p);
      StillNobody(w, i, sock, w2, i);
      i' := LoopUntouched(w2, p, events, i, sock);
      UntouchedTwice(w, i, sock, w2, i, w', i');
    } else if w.clients[p].toErase {
      OtherErased(w, p, events, i, sock);
      LoopErased(w, p, events);
      var w1, i1 := Erase(w, p), NewPlace(i, DoErase(p));
      StillNobody(w, i, sock, w1, i1);
      i' := LoopUntouched(w1, p, events, i1, sock);
      UntouchedTwice(w, i, sock, w1, i1, w', i');
    } else if w.clients[p].sock < 0 || EventOf(events, w.clients[p].sock) == Quiet {
      LoopSkipped(w, p, events);
      i' := LoopUntouched(w, p + 1, events, i, sock);
    } else if EventOf(events, w.clients[p].sock).Message? {
      i' := MessageLoopUntouched(w, p, events, EventOf(events, w.clients[p].sock).buffer, i, sock);
    } else {
      FailedSteps(w, p, events);
      LoopFailed(w, p, events);
      i' := ClosedLoopUntouched(w, p, events, i, sock);
    }
  }

  lemma {:induction false} ClosedLoopUntouched(w: World, p: nat, events: map<int, Event>, i: nat, sock: int)
    returns (i': nat)
    requires WorldOk(w) && p < |w.clients| && !w.clients[p].toDisconnect && w.clients[p].sock >= 0 && i != p
    requires AllPolite(w, CloseAndGoOn(w, p, events))
    requires Nobody(w, i, sock) && Unmarked(w.clients[i]) && EventOf(events, sock) == Quiet
    ensures Exec(w, CloseAndGoOn(w, p, events)).Some?
    ensures Untouched(w, i, sock, Exec(w, CloseAndGoOn(w, p, events)).value, i')
    decreases |w.clients| - p, 0, 1, 0
  {
    hide WorldOk, AllPolite, LoopSteps, CloseAndGoOn, Exec, CloseDefined, Untouched;
    OtherClosed(w, p, events, i, sock);
    var w1 := Close(w, p);
    ClosedRest(w, p, events);
    StillNobody(w, i, sock, w1, i);
    i' := LoopUntouched(w1, p, events, i, sock);
    UntouchedTwice(w, i, sock, w1, i, Exec(w1, LoopSteps(w1, p, events)).value, i');
  }

  lemma {:induction false} MessageLoopUntouched(w: World, p: nat, events: map<int, Event>, buffer: string, i: nat, sock: int)
    returns (i': nat)
    requires WorldOk(w) && Served(w, p) && EventOf(events, w.clients[p].sock) == Message(buffer)
    requires AllPolite(w, LoopSteps(w, p, events))
    requires Nobody(w, i, sock) && Unmarked(w.clients[i]) && EventOf(events, sock) == Quiet
    ensures Exec(w, LoopSteps(w, p, events)).Some?
    ensures Untouched(w, i, sock, Exec(w, LoopSteps(w, p, events)).value, i')
    decreases |w.clients| - p, 0, 1, 1
  {
    hide WorldOk, AllPolite, LoopSteps, CloseAndGoOn, Exec, MessageSteps, MessageAccepted, Untouched, SameFlags;
    OtherServed(w, p, events, buffer, i, sock);
    var ss := MessageSteps(w, p, buffer);
    var w1 := Exec(w, ss).value;
    MessageLoopSteps(w, p, events, buffer);
    SameAt(w, w1, p);
    StillNobody(w, i, sock, w1, i);
    var rest := AfterMessage(w1, p, events, MessageAccepted(w, p, buffer));
    ExecAppend(w, ss, rest);
    if MessageAccepted(w, p, buffer) {
      i' := LoopUntouched(w1, p + 1, events, i, sock);
    } else {
      i' := ClosedLoopUntouched(w1, p, events, i, sock);
    }
    UntouchedTwice(w, i, sock, w1, i, Exec(w1, rest).value, i');
  }

  lemma ClosedRest(w: World, p: nat, events: map<int, Event>)
    requires p < |w.clients| && !w.clients[p].toDisconnect && w.clients[p].sock >= 0 && CloseDefined(w, p)
    ensures CloseAndGoOn(w, p, events) == [DoClose(p)] + LoopSteps(Close(w, p), p, events)
    ensures Exec(w, CloseAndGoOn(w, p, events)) == Exec(Close(w, p), LoopSteps(Close(w, p), p, events))
    ensures Close(w, p).clients[p].sock < 0 && |Close(w, p).clients| == |w.clients| && !Close(w, p).clients[p].toDisconnect
  {
    ExecOne(w, DoClose(p));
    ExecAppend(w, [DoClose(p)], LoopSteps(Close(w, p), p, events));
    hide LoopSteps, CloseDefined;
  }

  lemma StepsRun(w: World, ss: seq<Step>, p: nat, events: map<int, Event>)
    requires WorldOk(w) && ss == LoopSteps(w, p, events) && AllPolite(w, ss)
    ensures Exec(w, ss).Some?
  {
    hide WorldOk, LoopSteps, AllPolite, AllScheduled, Exec;
    LoopScheduled(w, p, events);
    StepsKeep(w, ss);
  }

  // ----- The loop removes a marked one

  predicate Marked(c: ClientRec) {
    c.toDisconnect && c.toErase
  }

  /** No client has the socket. */
  predicate NoSocket(w: World, sock: int) {
    forall k :: 0 <= k < |w.clients| ==> w.clients[k].sock != sock
  }

  /** The next steps close and erase the client with this socket, and do nothing else. */
  ghost predicate RemovesNext(w: World, ss: seq<Step>, sock: int) {
    exists i :: HasSocket(w, i, sock)
      && |ss| >= 3 && ss[0] == DoClose(i) && ss[1] == DoUnflag(i) && ss[2] == DoErase(i)
      && Exec(w, [ss[0], ss[1], ss[2]]) == Some(Dropped(w, i))
  }

  /** Somewhere along the steps the client with this socket is removed. */
  ghost predicate Removes(w: World, ss: seq<Step>, sock: int)
    decreases |ss|
  {
    RemovesNext(w, ss, sock) || (ss != [] && StepDefined(w, ss[0]) && Removes(Apply(w, ss[0]), ss[1..], sock))
  }

  lemma {:induction false} RemovesLater(w: World, a: seq<Step>, b: seq<Step>, sock: int)
    requires Exec(w, a).Some? && Removes(Exec(w, a).value, b, sock)
    ensures Removes(w, a + b, sock)
    decreases |a|
  {
    hide RemovesNext, StepDefined, Apply;
    if a == [] {
      assert a + b == b;
    } else {
      assert (a + b)[1..] == a[1..] + b;
      RemovesLater(Apply(w, a[0]), a[1..], b, sock);
    }
  }

  lemma RemovesNextBefore(w: World, a: seq<Step>, b: seq<Step>, sock: int)
    requires RemovesNext(w, a, sock)
    ensures RemovesNext(w, a + b, sock)
  {
    hide Exec, Dropped;
  }

  lemma {:induction false} RemovesBefore(w: World, a: seq<Step>, b: seq<Step>, sock: int)
    requires Removes(w, a, sock)
    ensures Removes(w, a + b, sock)
    decreases |a|
  {
    hide RemovesNext, StepDefined, Apply;
    if RemovesNext(w, a, sock) {
      RemovesNextBefore(w, a, b, sock);
    } else {
      assert (a + b)[1..] == a[1..] + b;
      RemovesBefore(Apply(w, a[0]), a[1..], b, sock);
    }
  }

  /** What the loop is to do about the marked client. */
  ghost predicate Rids(w: World, ss: seq<Step>, sock: int) {
    Exec(w, ss).Some? && Removes(w, ss, sock) && NoSocket(Exec(w, ss).value, sock)
  }

  lemma RidsLater(w: World, a: seq<Step>, w1: World, b: seq<Step>, sock: int)
    requires Exec(w, a) == Some(w1) && Rids(w1, b, sock)
    ensures Rids(w, a + b, sock)
  {
    ExecAppend(w, a, b);
    RemovesLater(w, a, b, sock);
    hide Removes, Exec;
  }

  /** The loop lets nobody in. */
  lemma {:induction false} LoopNoSocket(w: World, p: nat, events: map<int, Event>, sock: int)
    requires p <= |w.clients| && sock >= 0 && NoSocket(w, sock) && Exec(w, LoopSteps(w, p, events)).Some?
    ensures NoSocket(Exec(w, LoopSteps(w, p, events)).value, sock)
    decreases |w.clients| - p, Flag(p < |w.clients| && w.clients[p].toDisconnect),
      Flag(p < |w.clients| && w.clients[p].sock >= 0)
  {
    hide CloseDefined, EraseDefined, Defined, Handle, MessageSteps, MessageAccepted, LoopSteps, Exec;
    if p == |w.clients| {
      LoopDone(w, p, events);
    } else {
      var c := w.clients[p];
      if c.toDisconnect {
        LoopFlagged(w, p, events);
        LoopNoSocket(Unflag(Close(w, p), p), p, events, sock);
      } else if c.toErase {
        LoopErased(w, p, events);
        EraseNoSocket(w, p, sock);
        LoopNoSocket(Erase(w, p), p, events, sock);
      } else if c.sock < 0 || EventOf(events, c.sock) == Quiet {
        LoopSkipped(w, p, events);
        LoopNoSocket(w, p + 1, events, sock);
      } else if EventOf(events, c.sock).Message? {
        var buffer := EventOf(events, c.sock).buffer;
        LoopMessage(w, p, events, buffer);
        var w' := Exec(w, MessageSteps(w, p, buffer)).value;
        if MessageAccepted(w, p, buffer) {
          LoopNoSocket(w', p + 1, events, sock);
        } else {
          LoopNoSocket(Close(w', p), p, events, sock);
        }
      } else {
        LoopFailed(w, p, events);
        LoopNoSocket(Close(w, p), p, events, sock);
      }
    }
  }

  lemma EraseNoSocket(w: World, p: nat, sock: int)
    requires p < |w.clients| && NoSocket(w, sock)
    ensures NoSocket(Erase(w, p), sock)
  {
    var c := w.clients[p];
    if LeavesGame(c) && EraseDefined(w, p) {
      DestroySameFlags(w, c.room, p, FindNick(w.clients, OpponentOf(w, c)));
    }
  }

  function ThreeSteps(i: nat): seq<Step> {
    [DoClose(i), DoUnflag(i), DoErase(i)]
  }

  /** Closing, unflagging and erasing a nameless client. */
  lemma ThreeStepsDrop(w: World, i: nat, sock: int)
    requires Nobody(w, i, sock) && CloseDefined(w, i)
    ensures var w2 := Unflag(Close(w, i), i);
      w2.clients[i].toDisconnect == false && EraseDefined(w2, i) && Erase(w2, i) == Dropped(w, i)
    ensures Exec(w, ThreeSteps(i)) == Some(Dropped(w, i)) && NoSocket(Dropped(w, i), sock)
  {
    var w1 := Close(w, i);
    var w2 := Unflag(w1, i);
    assert Without(w2.clients, i) == Without(w.clients, i);
    ExecTwo(w1, DoUnflag(i), DoErase(i));
    assert ThreeSteps(i)[1..] == [DoUnflag(i), DoErase(i)];
    hide CloseDefined, Close;
  }

  lemma MarkedSteps(w: World, i: nat, events: map<int, Event>, sock: int)
    requires Nobody(w, i, sock) && Marked(w.clients[i]) && CloseDefined(w, i)
    ensures LoopSteps(w, i, events) == ThreeSteps(i) + LoopSteps(Dropped(w, i), i, events) && i <= |Dropped(w, i).clients|
  {
    hide LoopSteps, CloseDefined, EraseDefined, Close, Unflag, Erase, Exec, Dropped, NoSocket;
    ThreeStepsDrop(w, i, sock);
    StillMarked(w, i);
    var w2, rest := Unflag(Close(w, i), i), LoopSteps(Dropped(w, i), i, events);
    FlaggedSteps(w, i, events);
    EraseFirst(w2, i, events);
    assert [DoClose(i)] + ([DoUnflag(i)] + ([DoErase(i)] + rest)) == ThreeSteps(i) + rest;
  }

  /** The loop has come to the marked client. */
  lemma RemovedHere(w: World, i: nat, events: map<int, Event>, sock: int)
    requires WorldOk(w) && Nobody(w, i, sock) && Marked(w.clients[i]) && AllPolite(w, LoopSteps(w, i, events))
    ensures Rids(w, LoopSteps(w, i, events), sock)
  {
    hide WorldOk, LoopSteps, AllPolite, CloseDefined, EraseDefined, Close, Unflag, Erase, Exec, Dropped,
      NoSocket, Removes, ThreeSteps;
    StepDefinedWhenOk(w, i);
    ThreeStepsDrop(w, i, sock);
    MarkedSteps(w, i, events, sock);
    var w3 := Dropped(w, i);
    var rest := LoopSteps(w3, i, events);
    StepsRun(w, LoopSteps(w, i, events), i, events);
    ExecAppend(w, ThreeSteps(i), rest);
    LoopNoSocket(w3, i, events, sock);
    RemovedNow(w, i, rest, sock);
  }

  lemma StillMarked(w: World, i: nat)
    requires i < |w.clients| && Marked(w.clients[i])
    ensures |Close(w, i).clients| == |w.clients| && i <= |Dropped(w, i).clients|
    ensures var w2 := Unflag(Close(w, i), i); |w2.clients| == |w.clients| && w2.clients[i].toErase && !w2.clients[i].toDisconnect
  {
  }

  lemma RemovedNow(w: World, i: nat, rest: seq<Step>, sock: int)
    requires Nobody(w, i, sock) && Exec(w, ThreeSteps(i)) == Some(Dropped(w, i))
    ensures Removes(w, ThreeSteps(i) + rest, sock)
  {
    hide Exec, Dropped;
    var ss := ThreeSteps(i) + rest;
    assert [ss[0], ss[1], ss[2]] == ThreeSteps(i);
    assert RemovesNext(w, ss, sock);
  }

  /** The loop removes a marked nameless client that is still to come. */
  lemma {:induction false} LoopRids(w: World, p: nat, events: map<int, Event>, i: nat, sock: int)
    requires WorldOk(w) && AllPolite(w, LoopSteps(w, p, events))
    requires Nobody(w, i, sock) && Marked(w.clients[i]) && p <= i
    ensures Rids(w, LoopSteps(w, p, events), sock)
    decreases |w.clients| - p, Flag(p < |w.clients| && w.clients[p].toDisconnect),
      Flag(p < |w.clients| && w.clients[p].sock >= 0)
  {
    hide WorldOk, AllPolite, LoopSteps, CloseAndGoOn, Exec, Erase, EraseDefined, CloseDefined, MessageSteps,
      MessageAccepted, Untouched, Rids;
    if p == i {
      RemovedHere(w, i, events, sock);
    } else if w.clients[p].toDisconnect {
      FlaggedUntouched(w, p, events, i, sock);
      FlaggedSteps(w, p, events);
      var w2 := Unflag(Close(w, p), p);
      StillNobody(w, i, sock, w2, i);
      LoopRids(w2, p, events, i, sock);
      FlaggedFirst(w, p, events);
      RidsLater(w, [DoClose(p), DoUnflag(p)], w2, LoopSteps(w2, p, events), sock);
    } else if w.clients[p].toErase {
      OtherErased(w, p, events, i, sock);
      EraseFirst(w, p, events);
      var w1, i1 := Erase(w, p), NewPlace(i, DoErase(p));
      StillNobody(w, i, sock, w1, i1);
      LoopRids(w1, p, events, i1, sock);
      ExecOne(w, DoErase(p));
      RidsLater(w, [DoErase(p)], w1, LoopSteps(w1, p, events), sock);
    } else if w.clients[p].sock < 0 || EventOf(events, w.clients[p].sock) == Quiet {
      LoopSkipped(w, p, events);
      LoopRids(w, p + 1, events, i, sock);
    } else if EventOf(events, w.clients[p].sock).Message? {
      MessageLoopRids(w, p, events, EventOf(events, w.clients[p].sock).buffer, i, sock);
    } else {
      FailedSteps(w, p, events);
      ClosedLoopRids(w, p, events, i, sock);
    }
  }

  lemma FlaggedFirst(w: World, p: nat, events: map<int, Event>)
    requires p < |w.clients| && w.clients[p].toDisconnect && CloseDefined(w, p)
    ensures var w2 := Unflag(Close(w, p), p);
      && Exec(w, [DoClose(p), DoUnflag(p)]) == Some(w2) && |w2.clients| == |w.clients| && !w2.clients[p].toDisconnect
      && LoopSteps(w, p, events) == [DoClose(p), DoUnflag(p)] + LoopSteps(w2, p, events)
  {
    ExecTwo(w, DoClose(p), DoUnflag(p));
  }

  lemma {:induction false} ClosedLoopRids(w: World, p: nat, events: map<int, Event>, i: nat, sock: int)
    requires WorldOk(w) && p < |w.clients| && !w.clients[p].toDisconnect && w.clients[p].sock >= 0
    requires AllPolite(w, CloseAndGoOn(w, p, events))
    requires Nobody(w, i, sock) && Marked(w.clients[i]) && p < i
    ensures Rids(w, CloseAndGoOn(w, p, events), sock)
    decreases |w.clients| - p, 0, 1, 0
  {
    hide WorldOk, AllPolite, LoopSteps, CloseAndGoOn, Exec, CloseDefined, Untouched, Rids;
    OtherClosed(w, p, events, i, sock);
    var w1 := Close(w, p);
    ClosedRest(w, p, events);
    StillNobody(w, i, sock, w1, i);
    LoopRids(w1, p, events, i, sock);
    ExecOne(w, DoClose(p));
    RidsLater(w, [DoClose(p)], w1, LoopSteps(w1, p, events), sock);
  }

  lemma {:induction false} MessageLoopRids(w: World, p: nat, events: map<int, Event>, buffer: string, i: nat, sock: int)
    requires WorldOk(w) && Served(w, p) && EventOf(events, w.clients[p].sock) == Message(buffer)
    requires AllPolite(w, LoopSteps(w, p, events))
    requires Nobody(w, i, sock) && Marked(w.clients[i]) && p < i
    ensures Rids(w, LoopSteps(w, p, events), sock)
    decreases |w.clients| - p, 0, 1, 1
  {
    hide WorldOk, AllPolite, LoopSteps, CloseAndGoOn, Exec, MessageSteps, MessageAccepted, Untouched, SameFlags, Rids;
    OtherServed(w, p, events, buffer, i, sock);
    var ss := MessageSteps(w, p, buffer);
    var w1 := Exec(w, ss).value;
    MessageLoopSteps(w, p, events, buffer);
    SameAt(w, w1, p);
    StillNobody(w, i, sock, w1, i);
    if MessageAccepted(w, p, buffer) {
      LoopRids(w1, p + 1, events, i, sock);
    } else {
      ClosedLoopRids(w1, p, events, i, sock);
    }
    RidsLater(w, ss, w1, AfterMessage(w1, p, events, MessageAccepted(w, p, buffer)), sock);
  }

  // ----- A whole pass

  /** Nothing comes from the socket, and it is not handed out anew. */
  predicate Silent(input: Input, sock: int) {
    EventOf(input.events, sock) == Quiet && (input.arrival.Some? ==> input.arrival.value.1 != sock)
  }

  lemma ArrivalUntouched(w: World, input: Input, i: nat, sock: int)
    requires WorldOk(w) && Nobody(w, i, sock) && Silent(input, sock)
    ensures WorldOk(AfterArrival(w, input)) && Untouched(w, i, sock, AfterArrival(w, input), i)
  {
    ArrivalScheduled(w, input);
    ArrivalExec(w, input);
    StepsKeep(w, ArrivalSteps(input));
  }

  /** Making room takes a disconnected client, or the one that has just come. */
  lemma CapacityUntouched(w: World, max: int, i: nat, sock: int) returns (i': nat)
    requires WorldOk(w) && Nobody(w, i, sock) && AllPolite(w, CapacitySteps(w, max))
    requires |w.clients| == max ==> i != |w.clients| - 1
    ensures Exec(w, CapacitySteps(w, max)).Some? && WorldOk(Exec(w, CapacitySteps(w, max)).value)
    ensures Untouched(w, i, sock, Exec(w, CapacitySteps(w, max)).value, i')
  {
    CapacityScheduled(w, max);
    StepsKeep(w, CapacitySteps(w, max));
    hide WorldOk, Untouched;
    if |w.clients| != max || max < 1 {
      i' := i;
      NothingUntouched(w, i, sock);
    } else if SomeDisconnected(w.clients) {
      var s := DoEvict(Longest(w.clients));
      StepUntouched(w, s, i, sock);
      EvictSteps(w, max);
      i' := NewPlace(i, s);
    } else {
      i' := i;
      RefusedUntouched(w, max, i, sock);
    }
  }

  lemma RefusedUntouched(w: World, max: int, i: nat, sock: int)
    requires WorldOk(w) && Nobody(w, i, sock) && |w.clients| == max >= 1
    requires !SomeDisconnected(w.clients) && i != |w.clients| - 1
    requires Exec(w, CapacitySteps(w, max)).Some?
    ensures Untouched(w, i, sock, Exec(w, CapacitySteps(w, max)).value, i)
  {
    hide WorldOk, Untouched, Close, Erase, EraseDefined, CloseDefined, CapacitySteps, Exec, SomeDisconnected, Nobody;
    var p := |w.clients| - 1;
    RefuseSteps(w, max);
    ClosedUntouched(w, p, i, sock);
    var w1 := Close(w, p);
    StillNobody(w, i, sock, w1, i);
    ErasedUntouched(w1, p, i, sock);
    UntouchedTwice(w, i, sock, w1, i, Erase(w1, p), i);
  }

  lemma ClosedUntouched(w: World, p: nat, i: nat, sock: int)
    requires WorldOk(w) && Nobody(w, i, sock) && p < |w.clients| && i != p
    ensures CloseDefined(w, p) && WorldOk(Close(w, p)) && |Close(w, p).clients| == |w.clients|
    ensures Untouched(w, i, sock, Close(w, p), i)
  {
    CloseHidden(w, p);
    hide WorldOk, CloseDefined;
  }

  lemma StartedOk(w: World, a: nat, b: nat)
    requires WorldOk(w) && BothReady(w, a, b)
    ensures WorldOk(StartGame(w, a, b)) && |StartGame(w, a, b).clients| == |w.clients|
  {
    hide WorldOk, StartGame;
    StartKeeps(w, a, b);
  }

  lemma {:induction false} PairsUntouched(w: World, p: nat, i: nat, sock: int)
    requires WorldOk(w) && p <= |w.clients| && Nobody(w, i, sock)
    ensures Exec(w, PairSteps(w, p)).Some? && Untouched(w, i, sock, Exec(w, PairSteps(w, p)).value, i)
    decreases |w.clients| - p
  {
    hide PairSteps, NextReady, StartGame, WorldOk, Untouched, Nobody;
    var a := NextReady(w.clients, p);
    if a == |w.clients| || NextReady(w.clients, a + 1) == |w.clients| {
      PairStepsNone(w, p);
      NothingUntouched(w, i, sock);
    } else {
      var b := NextReady(w.clients, a + 1);
      PairFound(w, a, b, p);
      var w1 := StartGame(w, a, b);
      StartUntouched(w, a, b, i, sock);
      StartedOk(w, a, b);
      StillNobody(w, i, sock, w1, i);
      PairStepsRun(w, p, a, b);
      PairsUntouched(w1, b + 1, i, sock);
      UntouchedTwice(w, i, sock, w1, i, Exec(w1, PairSteps(w1, b + 1)).value, i);
    }
  }

  /** The world after making room, and the one after the loop. */
  ghost predicate Phases(w: World, input: Input, max: int, w1: World, w2: World) {
    var w0, a := AfterArrival(w, input), ArrivalSteps(input) + CapacitySteps(AfterArrival(w, input), max);
    && WorldOk(w0) && AllPolite(w0, CapacitySteps(w0, max)) && Exec(w0, CapacitySteps(w0, max)) == Some(w1) && Exec(w, a) == Some(w1)
    && WorldOk(w1) && AllPolite(w1, LoopSteps(w1, 0, input.events)) && Exec(w1, LoopSteps(w1, 0, input.events)) == Some(w2)
    && WorldOk(w2) && PassDefined(w, input, max) && Exec(w2, PairSteps(w2, 0)) == Some(Pass(w, input, max))
    && PassSteps(w, input, max) == a + (LoopSteps(w1, 0, input.events) + PairSteps(w2, 0))
  }

  lemma PassInPhases(w: World, input: Input, max: int) returns (w1: World, w2: World)
    requires WorldOk(w) && AllPolite(w, PassSteps(w, input, max))
    ensures Phases(w, input, max, w1, w2)
  {
    hide WorldOk, CapacitySteps, ArrivalSteps, LoopSteps, PairSteps, Exec, AllPolite, AllScheduled, AfterArrival;
    var w0 := AfterArrival(w, input);
    var a, c := ArrivalSteps(input), CapacitySteps(w0, max);
    PassKeeps(w, input, max);
    PassPhases(w, input, max);
    ArrivalScheduled(w, input);
    ArrivalExec(w, input);
    StepsKeep(w, a);
    ExecAppend(w, a, c);
    w1 := Exec(w0, c).value;
    var l := LoopSteps(w1, 0, input.events);
    w2 := Exec(w1, l).value;
    var pairs := PairSteps(w2, 0);
    assert PassSteps(w, input, max) == (a + c) + (l + pairs);
    PoliteAppend(w, a + c, l + pairs);
    PoliteAppend(w, a, c);
    PoliteAppend(w1, l, pairs);
    CapacityScheduled(w0, max);
    StepsKeep(w0, c);
    LoopScheduled(w1, 0, input.events);
    StepsKeep(w1, l);
  }

  lemma PassUntouched(w: World, input: Input, max: int, i: nat, sock: int) returns (i': nat)
    requires WorldOk(w) && |w.clients| < max && AllPolite(w, PassSteps(w, input, max))
    requires Nobody(w, i, sock) && Unmarked(w.clients[i]) && Silent(input, sock)
    ensures PassDefined(w, input, max) && Untouched(w, i, sock, Pass(w, input, max), i')
  {
    hide WorldOk, CapacitySteps, ArrivalSteps, LoopSteps, PairSteps, Exec, AllPolite, PassSteps, PassDefined,
      Pass, Untouched;
    var w0 := AfterArrival(w, input);
    var w1, w2 := PassInPhases(w, input, max);
    ArrivalUntouched(w, input, i, sock);
    StillNobody(w, i, sock, w0, i);
    var i1 := CapacityUntouched(w0, max, i, sock);
    StillNobody(w0, i, sock, w1, i1);
    var i2 := LoopUntouched(w1, 0, input.events, i1, sock);
    StillNobody(w1, i1, sock, w2, i2);
    PairsUntouched(w2, 0, i2, sock);
    i' := i2;
    UntouchedTwice(w, i, sock, w0, i, w1, i1);
    UntouchedTwice(w, i, sock, w1, i1, w2, i2);
    UntouchedTwice(w, i, sock, w2, i2, Pass(w, input, max), i');
  }

  lemma {:induction false} PairsNoSocket(w: World, p: nat, sock: int)
    requires p <= |w.clients| && NoSocket(w, sock)
    ensures Exec(w, PairSteps(w, p)).Some? && NoSocket(Exec(w, PairSteps(w, p)).value, sock)
    decreases |w.clients| - p
  {
    hide PairSteps, NextReady, StartGame;
    var a := NextReady(w.clients, p);
    if a == |w.clients| || NextReady(w.clients, a + 1) == |w.clients| {
      PairStepsNone(w, p);
    } else {
      var b := NextReady(w.clients, a + 1);
      StartResult(w, a, b);
      PairStepsRun(w, p, a, b);
      PairsNoSocket(StartGame(w, a, b), b + 1, sock);
    }
  }

  lemma PassRids(w: World, input: Input, max: int, i: nat, sock: int)
    requires WorldOk(w) && |w.clients| < max && AllPolite(w, PassSteps(w, input, max))
    requires Nobody(w, i, sock) && Marked(w.clients[i]) && Silent(input, sock)
    ensures PassDefined(w, input, max) && Removes(w, PassSteps(w, input, max), sock) && NoSocket(Pass(w, input, max), sock)
  {
    hide WorldOk, CapacitySteps, ArrivalSteps, LoopSteps, PairSteps, Exec, AllPolite, PassSteps, PassDefined,
      Pass, Untouched, Removes, NoSocket;
    var w0 := AfterArrival(w, input);
    var w1, w2 := PassInPhases(w, input, max);
    ArrivalUntouched(w, input, i, sock);
    StillNobody(w, i, sock, w0, i);
    var i1 := CapacityUntouched(w0, max, i, sock);
    StillNobody(w0, i, sock, w1, i1);
    LoopRids(w1, 0, input.events, i1, sock);
    var l, pairs := LoopSteps(w1, 0, input.events), PairSteps(w2, 0);
    RemovesBefore(w1, l, pairs, sock);
    RemovesLater(w, ArrivalSteps(input) + CapacitySteps(w0, max), l + pairs, sock);
    PairsNoSocket(w2, 0, sock);
  }

  // ----- Two pings

  /** One client has the socket, and this is the client. */
  ghost predicate Stands(w: World, c: ClientRec) {
    exists i: nat :: HasSocket(w, i, c.sock) && w.clients[i] == c
  }

  lemma {:induction false} PoliteRunAppend(w: World, a: seq<Turn>, b: seq<Turn>, max: int)
    ensures PoliteRun(w, a + b, max) <==> PoliteRun(w, a, max) && (Go(w, a, max).Some? ==> PoliteRun(Go(w, a, max).value, b, max))
    decreases |a|
  {
    hide PassSteps, AllPolite, Pass, PassDefined, PingRound, RoundDefined;
    if a == [] {
      assert a + b == b;
    } else {
      assert (a + b)[0] == a[0] && (a + b)[1..] == a[1..] + b;
      match a[0]
      case PingTurn => if RoundDefined(w) { PoliteRunAppend(PingRound(w), a[1..], b, max); }
      case UpdateTurn(input) => if PassDefined(w, input, max) { PoliteRunAppend(Pass(w, input, max), a[1..], b, max); }
    }
  }

  lemma PingTurnOf(w: World, i: nat, sock: int, max: int)
    requires WorldOk(w) && Nobody(w, i, sock)
    ensures Go(w, [PingTurn], max) == Some(PingRound(w)) && WorldOk(PingRound(w)) && |PingRound(w).clients| == |w.clients|
    ensures Nobody(PingRound(w), i, sock)
    ensures PingRound(w).clients[i] ==
      if w.clients[i].state == New then w.clients[i].(state := Pinged, stateLast := New)
      else w.clients[i].(toDisconnect := true, toErase := true)
  {
    RoundHidden(w);
    GoOnce(w, PingTurn, max);
    RoundExactly(w, i);
    forall k | 0 <= k < |w.clients| ensures PingRound(w).clients[k].sock == w.clients[k].sock {
      RoundExactly(w, k);
    }
    hide WorldOk, PingRound, Go;
  }

  lemma {:induction false} UpdatesUntouched(w: World, inputs: seq<Input>, max: int, i: nat, sock: int)
    returns (i': nat)
    requires WorldOk(w) && |w.clients| < max && PoliteRun(w, FailureTheory.Updates(inputs), max)
    requires Nobody(w, i, sock) && Unmarked(w.clients[i]) && forall k :: 0 <= k < |inputs| ==> Silent(inputs[k], sock)
    ensures Go(w, FailureTheory.Updates(inputs), max).Some?
    ensures var w' := Go(w, FailureTheory.Updates(inputs), max).value;
      WorldOk(w') && |w'.clients| < max && Untouched(w, i, sock, w', i')
    decreases |inputs|
  {
    hide WorldOk, PassSteps, AllPolite, Pass, PassDefined, Untouched, Silent;
    var ts := FailureTheory.Updates(inputs);
    if inputs == [] {
      i' := i;
      NothingUntouched(w, i, sock);
    } else {
      assert ts[0] == UpdateTurn(inputs[0]) && ts[1..] == FailureTheory.Updates(inputs[1..]);
      assert Silent(inputs[0], sock);
      var i1 := PassUntouched(w, inputs[0], max, i, sock);
      var w1 := Pass(w, inputs[0], max);
      PassKeeps(w, inputs[0], max);
      PassResult(w, inputs[0], max);
      StillNobody(w, i, sock, w1, i1);
      i' := UpdatesUntouched(w1, inputs[1..], max, i1, sock);
      UntouchedTwice(w, i, sock, w1, i1, Go(w, ts, max).value, i');
    }
  }

  /** A connection without a name, from which nothing comes: after a ping round and any number
      of passes it is pinged and otherwise as it was, the next ping round marks it, and the
      next pass closes and erases it and does nothing else about it. */
  lemma NamelessIsRemoved(w: World, i: nat, sock: int, inputs: seq<Input>, last: Input, max: int)
    requires WorldOk(w) && |w.clients| < max && Nobody(w, i, sock) && w.clients[i].state == New && Unmarked(w.clients[i])
    requires (forall k :: 0 <= k < |inputs| ==> Silent(inputs[k], sock)) && Silent(last, sock)
    requires PoliteRun(w, (FailureTheory.RoundTurns(inputs) + [PingTurn]) + [UpdateTurn(last)], max)
    ensures var r := Go(w, FailureTheory.RoundTurns(inputs), max);
      r.Some? && Stands(r.value, w.clients[i].(state := Pinged, stateLast := New))
    ensures var r := Go(w, FailureTheory.RoundTurns(inputs) + [PingTurn], max);
      && r.Some? && Stands(r.value, w.clients[i].(state := Pinged, stateLast := New, toDisconnect := true, toErase := true))
      && Removes(r.value, PassSteps(r.value, last, max), sock)
    ensures var r := Go(w, (FailureTheory.RoundTurns(inputs) + [PingTurn]) + [UpdateTurn(last)], max);
      r.Some? && NoSocket(r.value, sock)
  {
    hide WorldOk, PoliteRun, Go, PassSteps, AllPolite, Pass, PassDefined, Untouched, Silent, PingRound,
      Removes, NoSocket;
    var ts, us := FailureTheory.RoundTurns(inputs), FailureTheory.Updates(inputs);
    PoliteRunAppend(w, ts + [PingTurn], [UpdateTurn(last)], max);
    PoliteRunAppend(w, ts, [PingTurn], max);
    PoliteRunAppend(w, [PingTurn], us, max);
    PingTurnOf(w, i, sock, max);
    var w0 := PingRound(w);
    GoAppend(w, [PingTurn], us, max);
    var i1 := UpdatesUntouched(w0, inputs, max, i, sock);
    var w1 := Go(w0, us, max).value;
    StillNobody(w0, i, sock, w1, i1);
    assert Stands(w1, w1.clients[i1]);
    PingTurnOf(w1, i1, sock, max);
    var w2 := PingRound(w1);
    GoAppend(w, ts, [PingTurn], max);
    assert Stands(w2, w2.clients[i1]);
    PoliteTurn(w2, last, max);
    PassRids(w2, last, max, i1, sock);
    GoOnce(w2, UpdateTurn(last), max);
    GoAppend(w, ts + [PingTurn], [UpdateTurn(last)], max);
  }

  lemma PoliteTurn(w: World, input: Input, max: int)
    requires PoliteRun(w, [UpdateTurn(input)], max)
    ensures AllPolite(w, PassSteps(w, input, max))
  {
  }
}
