/** How the server schedules the session: one update pass over all clients, and one ping
    round, each under the lock and therefore as a whole.  A pass is described by the list of
    small steps it takes; what these steps do is defined in Session.dfy. */
module Passes {
  import opened Rules
  import opened MoveText
  import opened Session
  import opened Codec

  datatype Step =
    | DoAccept(ip: string, sock: int)
    | DoEvict(i: nat)
    | DoClose(i: nat)
    | DoUnflag(i: nat)
    | DoErase(i: nat)
    | DoServe(i: nat, rq: Request)
    | DoStart(i: nat, j: nat)

  /** What a socket has to report. */
  datatype Event = Quiet | Failed | Hangup | Message(buffer: string)

  /** What one pass finds: perhaps a new connection, and events on sockets. */
  datatype Input = Input(arrival: Option<(string, int)>, events: map<int, Event>)

  function EventOf(events: map<int, Event>, sock: int): Event {
    if sock in events then events[sock] else Quiet
  }

  // ----- Small steps

  ghost predicate StepDefined(w: World, s: Step) {
    match s
    case DoAccept(ip, sock) => true
    case DoEvict(i) => i < |w.clients|
    case DoClose(i) => i < |w.clients| && CloseDefined(w, i)
    case DoUnflag(i) => i < |w.clients|
    case DoErase(i) => i < |w.clients| && EraseDefined(w, i)
    case DoServe(i, rq) => i < |w.clients| && WellFormed(rq) && Defined(w, i, rq)
    case DoStart(i, j) => i < |w.clients| && j < |w.clients|
  }

  ghost function Apply(w: World, s: Step): World
    requires StepDefined(w, s)
  {
    match s
    case DoAccept(ip, sock) => Accept(w, ip, sock)
    case DoEvict(i) => Dropped(w, i)
    case DoClose(i) => Close(w, i)
    case DoUnflag(i) => Unflag(w, i)
    case DoErase(i) => Erase(w, i)
    case DoServe(i, rq) => Handle(w, i, rq)
    case DoStart(i, j) => StartGame(w, i, j)
  }

  /** The world after the steps, or None if one of them follows a lookup that found nothing. */
  ghost function Exec(w: World, ss: seq<Step>): Option<World>
    decreases |ss|
  {
    if ss == [] then Some(w)
    else if !StepDefined(w, ss[0]) then None
    else Exec(Apply(w, ss[0]), ss[1..])
  }

  // ----- Serving one client

  function Requests(buffer: string): seq<Request> {
    RequestsOf(Items(buffer))
  }

  function RequestsOf(items: seq<string>): seq<Request> {
    seq(|items|, k requires 0 <= k < |items| => RequestIn(items[k]))
  }

  function RequestIn(item: string): Request {
    if Tokens(item) == [] then Unknown else RequestOf(Tokens(item))
  }

  lemma ItemWellFormed(item: string)
    requires IsItem(item)
    ensures WellFormed(RequestIn(item))
  {
    KeysAndValues(item);
    hide IsItem, Tokens;
  }

  predicate AllWellFormed(rqs: seq<Request>) {
    forall k :: 0 <= k < |rqs| ==> WellFormed(rqs[k])
  }

  /** Every message of a valid buffer stands for a well-formed request. */
  lemma RequestsWellFormed(buffer: string)
    requires IsValidFormat(buffer)
    ensures AllWellFormed(Requests(buffer)) && Requests(buffer) != []
  {
    PrintParse(buffer);
    var ws := Items(buffer);
    forall k | 0 <= k < |ws| ensures WellFormed(Requests(buffer)[k]) {
      ItemWellFormed(ws[k]);
    }
  }

  /** Requests are handled one after the other until one is refused. */
  ghost function ServeSteps(w: World, i: nat, rqs: seq<Request>): seq<Step>
    decreases |rqs|
  {
    if rqs == [] then []
    else if StepDefined(w, DoServe(i, rqs[0])) && Accepted(w, i, rqs[0]) then
      [DoServe(i, rqs[0])] + ServeSteps(Handle(w, i, rqs[0]), i, rqs[1..])
    else [DoServe(i, rqs[0])]
  }

  ghost predicate AllAccepted(w: World, i: nat, rqs: seq<Request>)
    decreases |rqs|
  {
    rqs == [] ||
    (StepDefined(w, DoServe(i, rqs[0])) && Accepted(w, i, rqs[0]) && AllAccepted(Handle(w, i, rqs[0]), i, rqs[1..]))
  }

  /** The first of several requests. */
  lemma ServeFirst(w: World, i: nat, rqs: seq<Request>)
    requires rqs != [] && Exec(w, ServeSteps(w, i, rqs)).Some?
    ensures StepDefined(w, DoServe(i, rqs[0]))
    ensures var w' := Handle(w, i, rqs[0]);
      if Accepted(w, i, rqs[0]) then
        && Exec(w, ServeSteps(w, i, rqs)) == Exec(w', ServeSteps(w', i, rqs[1..]))
        && (AllAccepted(w, i, rqs) <==> AllAccepted(w', i, rqs[1..]))
      else Exec(w, ServeSteps(w, i, rqs)) == Some(w') && !AllAccepted(w, i, rqs)
  {
    var ss := ServeSteps(w, i, rqs);
    assert ss[0] == DoServe(i, rqs[0]);
    if Accepted(w, i, rqs[0]) {
      assert ss[1..] == ServeSteps(Handle(w, i, rqs[0]), i, rqs[1..]);
    } else {
      assert ss[1..] == [];
    }
  }

  /** What a buffer makes the server do for the client, and whether the client may stay. */
  ghost function MessageSteps(w: World, i: nat, buffer: string): seq<Step> {
    if IsValidFormat(buffer) then ServeSteps(w, i, Requests(buffer)) else []
  }

  ghost predicate MessageAccepted(w: World, i: nat, buffer: string) {
    IsValidFormat(buffer) && AllAccepted(w, i, Requests(buffer))
  }

  // ----- Serving all clients

  /** Serving keeps the number of clients, their sockets and their disconnect flags. */
  predicate SameFlags(w: World, w': World) {
    |w'.clients| == |w.clients| &&
    forall k :: 0 <= k < |w.clients| ==> w'.clients[k].toDisconnect == w.clients[k].toDisconnect && w'.clients[k].sock == w.clients[k].sock
  }

  /** No client but the one at `x` is newly marked for erasing. */
  predicate NoneMarkedBut(w: World, w': World, x: int) {
    |w'.clients| == |w.clients| &&
    forall k :: 0 <= k < |w.clients| && k != x && w'.clients[k].toErase ==> w.clients[k].toErase
  }

  lemma DestroySameFlags(w: World, id: int, i: nat, j: nat)
    requires i < |w.clients| && j < |w.clients|
    ensures SameFlags(w, DestroyRoom(w, id, i, j)) && NoneMarkedBut(w, DestroyRoom(w, id, i, j), -1)
  {
  }

  lemma PutSameFlags(w: World, i: nat, c: ClientRec)
    requires i < |w.clients| && c.toDisconnect == w.clients[i].toDisconnect && c.sock == w.clients[i].sock
    requires c.toErase == w.clients[i].toErase
    ensures SameFlags(w, Put(w, i, c)) && NoneMarkedBut(w, Put(w, i, c), -1)
  {
  }

  lemma SameFlagsTwice(w: World, w1: World, w2: World)
    requires SameFlags(w, w1) && NoneMarkedBut(w, w1, -1) && SameFlags(w1, w2) && NoneMarkedBut(w1, w2, -1)
    ensures SameFlags(w, w2) && NoneMarkedBut(w, w2, -1)
  {
  }

  lemma MovedSameFlags(w: World, i: nat, coords: string)
    requires i < |w.clients| && IsMoveText(coords) && MoveDefined(w, i, coords)
    ensures SameFlags(w, Moved(w, i, coords)) && NoneMarkedBut(w, Moved(w, i, coords), -1)
  {
    var id := w.clients[i].room;
    var g := RoomGame(w, id);
    if Legal(g, MoveOf(coords)) {
      var w1 := WithGame(w, id, Play(g, MoveOf(coords)));
      var g' := RoomGame(w1, id);
      var a, b := FindNick(w1.clients, g'.onTurn), FindNick(w1.clients, g'.onStand);
      TurnSameFlags(w1, a, b);
      DestroySameFlags(TurnTo(w1, a, b), id, a, b);
      SameFlagsTwice(w1, TurnTo(w1, a, b), DestroyRoom(TurnTo(w1, a, b), id, a, b));
    }
  }

  lemma TurnSameFlags(w: World, a: nat, b: nat)
    requires a < |w.clients| && b < |w.clients|
    ensures SameFlags(w, TurnTo(w, a, b)) && NoneMarkedBut(w, TurnTo(w, a, b), -1)
  {
  }

  lemma TakeOverSameFlags(w: World, i: nat, k: nat, nick: string)
    requires i < |w.clients| && k < |w.clients|
    ensures SameFlags(w, TakeOver(w, i, k, nick)) && NoneMarkedBut(w, TakeOver(w, i, k, nick), k)
  {
  }

  lemma ReconnectSameFlags(w: World, i: nat, k: nat, nick: string)
    requires i < |w.clients| && k < |w.clients|
    ensures SameFlags(w, Reconnect(w, i, k, nick)) && NoneMarkedBut(w, Reconnect(w, i, k, nick), k)
  {
    hide TakeOver, WithState;
    TakeOverSameFlags(w, i, k, nick);
    RestoringSameFlags(w, i);
  }

  lemma RestoringSameFlags(w: World, i: nat)
    requires i < |w.clients|
    ensures var w' := Put(w, i, WithState(w.clients[i], w.clients[i].stateLast)); SameFlags(w, w') && NoneMarkedBut(w, w', -1)
  {
    PutSameFlags(w, i, WithState(w.clients[i], w.clients[i].stateLast));
  }

  lemma ConnectSameFlags(w: World, i: nat, nick: string)
    requires i < |w.clients|
    ensures SameFlags(w, Connecting(w, i, nick))
    ensures NoneMarkedBut(w, Connecting(w, i, nick), FindNickAndIp(w.clients, nick, w.clients[i].ip))
  {
    hide Reconnect, HasNick, FreeToName;
    var k := FindNickAndIp(w.clients, nick, w.clients[i].ip);
    if HasNick(w, nick) && k < |w.clients| {
      ReconnectSameFlags(w, i, k, nick);
    }
  }

  lemma HandleSameFlags(w: World, i: nat, rq: Request)
    requires StepDefined(w, DoServe(i, rq))
    ensures SameFlags(w, Handle(w, i, rq))
    ensures NoneMarkedBut(w, Handle(w, i, rq), if rq.Connect? then FindNickAndIp(w.clients, rq.nick, w.clients[i].ip) else -1)
  {
    match rq
    case Connect(nick) => ConnectSameFlags(w, i, nick);
    case Move(coords) => if Routed(w.clients[i].state, rq) { MovedSameFlags(w, i, coords); }
    case Leave =>
      if Routed(w.clients[i].state, rq) {
        DestroySameFlags(w, w.clients[i].room, i, FindNick(w.clients, OpponentOf(w, w.clients[i])));
      }
    case _ =>
  }

  lemma {:induction false} ServeSameFlags(w: World, i: nat, rqs: seq<Request>)
    requires Exec(w, ServeSteps(w, i, rqs)).Some?
    ensures SameFlags(w, Exec(w, ServeSteps(w, i, rqs)).value)
    decreases |rqs|
  {
    if rqs != [] {
      ServeFirst(w, i, rqs);
      HandleSameFlags(w, i, rqs[0]);
      if Accepted(w, i, rqs[0]) {
        ServeSameFlags(Handle(w, i, rqs[0]), i, rqs[1..]);
      }
    }
  }

  function Flag(b: bool): nat {
    if b then 1 else 0
  }

  /** The loop over the clients, from position `p` on.  Positions do not always advance: a
      flagged or failed client is closed and looked at again, and erasing one moves the next
      into its place.  The measure shows that the loop ends all the same. */
  ghost function LoopSteps(w: World, p: nat, events: map<int, Event>): seq<Step>
    decreases |w.clients| - p, Flag(p < |w.clients| && w.clients[p].toDisconnect),
      Flag(p < |w.clients| && w.clients[p].sock >= 0)
  {
    if p >= |w.clients| then []
    else
      var c := w.clients[p];
      if c.toDisconnect then
        if !CloseDefined(w, p) then [DoClose(p)]
        else [DoClose(p), DoUnflag(p)] + LoopSteps(Unflag(Close(w, p), p), p, events)
      else if c.toErase then
        if !EraseDefined(w, p) then [DoErase(p)]
        else [DoErase(p)] + LoopSteps(Erase(w, p), p, events)
      else if c.sock < 0 then LoopSteps(w, p + 1, events)
      else
        match EventOf(events, c.sock)
        case Quiet => LoopSteps(w, p + 1, events)
        case Failed => CloseAndGoOn(w, p, events)
        case Hangup => CloseAndGoOn(w, p, events)
        case Message(buffer) =>
          var ss := MessageSteps(w, p, buffer);
          var r := Exec(w, ss);
          if r.None? then ss
          else
            MessageSameFlags(w, p, buffer);
            if MessageAccepted(w, p, buffer) then ss + LoopSteps(r.value, p + 1, events)
            else ss + CloseAndGoOn(r.value, p, events)
  }

  lemma MessageSameFlags(w: World, i: nat, buffer: string)
    requires Exec(w, MessageSteps(w, i, buffer)).Some?
    ensures SameFlags(w, Exec(w, MessageSteps(w, i, buffer)).value)
  {
    if IsValidFormat(buffer) {
      ServeSameFlags(w, i, Requests(buffer));
    }
  }

  ghost function CloseAndGoOn(w: World, p: nat, events: map<int, Event>): seq<Step>
    requires p < |w.clients| && !w.clients[p].toDisconnect && w.clients[p].sock >= 0
    decreases |w.clients| - p, 0, 1, 0
  {
    if !CloseDefined(w, p) then [DoClose(p)]
    else [DoClose(p)] + LoopSteps(Close(w, p), p, events)
  }

  // ----- Capacity

  /** The client to make room: disconnected, and longest so. */
  function Longest(cs: seq<ClientRec>): (i: nat)
    ensures if SomeDisconnected(cs) then LongestDisconnected(cs, i) else i == |cs|
  {
    if cs == [] then 0
    else
      var front, last := cs[..|cs| - 1], |cs| - 1;
      var i := Longest(front);
      assert forall k :: 0 <= k < |front| ==> front[k] == cs[k];
      if i < |front| then
        assert LongestDisconnected(front, i);
        if cs[last].state == Disconnected && cs[last].pings < cs[i].pings then last else i
      else
        assert !SomeDisconnected(front);
        if cs[last].state == Disconnected then last else |cs|
  }

  predicate Arrives(input: Input) {
    input.arrival.Some? && input.arrival.value.1 > 0
  }

  function ArrivalSteps(input: Input): seq<Step> {
    if Arrives(input) then [DoAccept(input.arrival.value.0, input.arrival.value.1)] else []
  }

  function AfterArrival(w: World, input: Input): World {
    if Arrives(input) then Accept(w, input.arrival.value.0, input.arrival.value.1) else w
  }

  /** When the server is full, a disconnected client makes room, or else the client that
      just came is turned away. */
  function CapacitySteps(w: World, max: int): seq<Step> {
    if |w.clients| != max || max < 1 then []
    else if SomeDisconnected(w.clients) then [DoEvict(Longest(w.clients))]
    else [DoClose(|w.clients| - 1), DoErase(|w.clients| - 1)]
  }

  // ----- Starting games

  /** The first client from position `p` on that is ready to play. */
  function NextReady(cs: seq<ClientRec>, p: nat): (i: nat)
    requires p <= |cs|
    ensures p <= i <= |cs| && (i < |cs| ==> cs[i].state == Ready)
    ensures forall k :: p <= k < i ==> cs[k].state != Ready
    decreases |cs| - p
  {
    if p == |cs| || cs[p].state == Ready then p else NextReady(cs, p + 1)
  }

  function PairSteps(w: World, p: nat): seq<Step>
    requires p <= |w.clients|
    decreases |w.clients| - p
  {
    var i := NextReady(w.clients, p);
    if i == |w.clients| then []
    else
      var j := NextReady(w.clients, i + 1);
      if j == |w.clients| then [] else [DoStart(i, j)] + PairSteps(StartGame(w, i, j), j + 1)
  }

  lemma PairStepsNone(w: World, p: nat)
    requires p <= |w.clients|
    requires NextReady(w.clients, p) == |w.clients| || NextReady(w.clients, NextReady(w.clients, p) + 1) == |w.clients|
    ensures PairSteps(w, p) == []
  {
    hide NextReady, StartGame;
  }

  lemma PairStepsFirst(w: World, p: nat, i: nat, j: nat)
    requires p <= |w.clients| && i == NextReady(w.clients, p) < |w.clients| && j == NextReady(w.clients, i + 1) < |w.clients|
    ensures PairSteps(w, p) == [DoStart(i, j)] + PairSteps(StartGame(w, i, j), j + 1)
  {
    hide NextReady, StartGame;
  }

  lemma PairStepsSame(w: World, p: nat, q: nat)
    requires p <= |w.clients| && q <= |w.clients| && NextReady(w.clients, p) == NextReady(w.clients, q)
    ensures PairSteps(w, p) == PairSteps(w, q)
  {
    hide NextReady, StartGame;
  }

  lemma PairStepsRun(w: World, p: nat, i: nat, j: nat)
    requires p <= |w.clients| && i == NextReady(w.clients, p) < |w.clients| && j == NextReady(w.clients, i + 1) < |w.clients|
    ensures Exec(w, PairSteps(w, p)) == Exec(StartGame(w, i, j), PairSteps(StartGame(w, i, j), j + 1))
  {
    hide PairSteps, NextReady, StartGame;
    PairStepsFirst(w, p, i, j);
    var rest := PairSteps(StartGame(w, i, j), j + 1);
    assert ([DoStart(i, j)] + rest)[1..] == rest;
  }

  lemma ReadyHere(cs: seq<ClientRec>, p: nat)
    requires p < |cs|
    ensures cs[p].state == Ready ==> NextReady(cs, p) == p
    ensures cs[p].state != Ready ==> NextReady(cs, p) == NextReady(cs, p + 1)
  {
  }

  // ----- A whole pass, and a whole ping round

  ghost function PassSteps(w: World, input: Input, max: int): seq<Step> {
    var a := ArrivalSteps(input) + CapacitySteps(AfterArrival(w, input), max);
    var r := Exec(w, a);
    if r.None? then a
    else
      var l := LoopSteps(r.value, 0, input.events);
      var r' := Exec(r.value, l);
      if r'.None? then a + l else a + (l + PairSteps(r'.value, 0))
  }

  ghost predicate PassDefined(w: World, input: Input, max: int) {
    Exec(w, PassSteps(w, input, max)).Some?
  }

  ghost function Pass(w: World, input: Input, max: int): World
    requires PassDefined(w, input, max)
  {
    Exec(w, PassSteps(w, input, max)).value
  }

  /** One ping round treats all clients alike. */
  function PingRound(w: World): World {
    w.(clients := seq(|w.clients|, i requires 0 <= i < |w.clients| => Pinging(w.clients[i])))
  }

  predicate RoundDefined(w: World) {
    forall i :: 0 <= i < |w.clients| ==> PingDefined(w, i)
  }

  lemma {:induction false} ExecAppend(w: World, a: seq<Step>, b: seq<Step>)
    ensures Exec(w, a).Some? ==> Exec(w, a + b) == Exec(Exec(w, a).value, b)
    ensures Exec(w, a).None? ==> Exec(w, a + b).None?
    decreases |a|
  {
    if a == [] {
      assert a + b == b;
    } else {
      assert (a + b)[1..] == a[1..] + b;
      if StepDefined(w, a[0]) { ExecAppend(Apply(w, a[0]), a[1..], b); }
    }
  }

  // ----- Going through a pass step by step

  lemma LoopFlagged(w: World, p: nat, events: map<int, Event>)
    requires p < |w.clients| && w.clients[p].toDisconnect
    requires Exec(w, LoopSteps(w, p, events)).Some?
    ensures CloseDefined(w, p)
    ensures var w' := Unflag(Close(w, p), p);
      Exec(w, LoopSteps(w, p, events)) == Exec(w', LoopSteps(w', p, events))
  {
    if CloseDefined(w, p) {
      var w' := Unflag(Close(w, p), p);
      ExecAppend(w, [DoClose(p), DoUnflag(p)], LoopSteps(w', p, events));
      ExecTwo(w, DoClose(p), DoUnflag(p));
    }
  }

  lemma ExecOne(w: World, s: Step)
    ensures Exec(w, [s]) == if StepDefined(w, s) then Some(Apply(w, s)) else None
  {
    assert [s][1..] == [];
  }

  lemma ExecTwo(w: World, s: Step, t: Step)
    ensures Exec(w, [s, t]) ==
      if StepDefined(w, s) && StepDefined(Apply(w, s), t) then Some(Apply(Apply(w, s), t)) else None
  {
    hide StepDefined, Apply;
    assert [s, t][1..] == [t];
    if StepDefined(w, s) { ExecOne(Apply(w, s), t); }
  }

  lemma LoopErased(w: World, p: nat, events: map<int, Event>)
    requires p < |w.clients| && !w.clients[p].toDisconnect && w.clients[p].toErase
    requires Exec(w, LoopSteps(w, p, events)).Some?
    ensures EraseDefined(w, p) && |Erase(w, p).clients| == |w.clients| - 1
    ensures Exec(w, LoopSteps(w, p, events)) == Exec(Erase(w, p), LoopSteps(Erase(w, p), p, events))
  {
    ExecOne(w, DoErase(p));
    if EraseDefined(w, p) {
      ExecAppend(w, [DoErase(p)], LoopSteps(Erase(w, p), p, events));
    }
  }

  lemma CloseUnfold(w: World, p: nat, events: map<int, Event>)
    requires p < |w.clients| && !w.clients[p].toDisconnect && w.clients[p].sock >= 0
    requires Exec(w, CloseAndGoOn(w, p, events)).Some?
    ensures CloseDefined(w, p)
    ensures Exec(w, CloseAndGoOn(w, p, events)) == Exec(Close(w, p), LoopSteps(Close(w, p), p, events))
  {
    ExecOne(w, DoClose(p));
    if CloseDefined(w, p) {
      ExecAppend(w, [DoClose(p)], LoopSteps(Close(w, p), p, events));
    }
  }

  predicate Served(w: World, p: nat) {
    p < |w.clients| && !w.clients[p].toDisconnect && !w.clients[p].toErase && w.clients[p].sock >= 0
  }

  lemma LoopFailed(w: World, p: nat, events: map<int, Event>)
    requires Served(w, p) && EventOf(events, w.clients[p].sock) in {Failed, Hangup}
    requires Exec(w, LoopSteps(w, p, events)).Some?
    ensures CloseDefined(w, p)
    ensures Exec(w, LoopSteps(w, p, events)) == Exec(Close(w, p), LoopSteps(Close(w, p), p, events))
  {
    CloseUnfold(w, p, events);
  }

  lemma LoopMessage(w: World, p: nat, events: map<int, Event>, buffer: string)
    requires Served(w, p) && EventOf(events, w.clients[p].sock) == Message(buffer)
    requires Exec(w, LoopSteps(w, p, events)).Some?
    ensures Exec(w, MessageSteps(w, p, buffer)).Some?
    ensures var w' := Exec(w, MessageSteps(w, p, buffer)).value;
      && SameFlags(w, w')
      && (MessageAccepted(w, p, buffer) ==>
            Exec(w, LoopSteps(w, p, events)) == Exec(w', LoopSteps(w', p + 1, events)))
      && (!MessageAccepted(w, p, buffer) ==>
            (CloseDefined(w', p)
             && Exec(w, LoopSteps(w, p, events)) == Exec(Close(w', p), LoopSteps(Close(w', p), p, events))))
  {
    var ss := MessageSteps(w, p, buffer);
    if Exec(w, ss).Some? {
      var w' := Exec(w, ss).value;
      MessageSameFlags(w, p, buffer);
      if MessageAccepted(w, p, buffer) {
        ExecAppend(w, ss, LoopSteps(w', p + 1, events));
      } else {
        ExecAppend(w, ss, CloseAndGoOn(w', p, events));
        CloseUnfold(w', p, events);
      }
    }
  }

  lemma LoopSkipped(w: World, p: nat, events: map<int, Event>)
    requires p < |w.clients| && !w.clients[p].toDisconnect && !w.clients[p].toErase
    requires w.clients[p].sock < 0 || EventOf(events, w.clients[p].sock) == Quiet
    ensures LoopSteps(w, p, events) == LoopSteps(w, p + 1, events)
  {
  }

  lemma LoopDone(w: World, p: nat, events: map<int, Event>)
    requires p >= |w.clients|
    ensures LoopSteps(w, p, events) == []
    ensures Exec(w, LoopSteps(w, p, events)) == Some(w)
  {
  }

  lemma PassPhases(w: World, input: Input, max: int)
    requires PassDefined(w, input, max)
    ensures Exec(AfterArrival(w, input), CapacitySteps(AfterArrival(w, input), max)).Some?
    ensures var w1 := Exec(AfterArrival(w, input), CapacitySteps(AfterArrival(w, input), max)).value;
      && Exec(w1, LoopSteps(w1, 0, input.events)).Some?
      && var w2 := Exec(w1, LoopSteps(w1, 0, input.events)).value;
         Exec(w2, PairSteps(w2, 0)) == Some(Pass(w, input, max))
  {
    var a, c := ArrivalSteps(input), CapacitySteps(AfterArrival(w, input), max);
    ArrivalExec(w, input);
    ExecAppend(w, a, c);
    var r := Exec(w, a + c);
    if r.Some? {
      var w1 := r.value;
      var l := LoopSteps(w1, 0, input.events);
      var r' := Exec(w1, l);
      var rest := if r'.None? then l else l + PairSteps(r'.value, 0);
      assert PassSteps(w, input, max) == if r'.None? then (a + c) + l else (a + c) + (l + PairSteps(r'.value, 0));
      ExecAppend(w, a + c, rest);
      if r'.Some? {
        ExecAppend(w1, l, PairSteps(r'.value, 0));
      }
    }
  }

  /** Turning the newest client away. */
  lemma RefuseSteps(w: World, max: int)
    requires |w.clients| == max && max >= 1 && !SomeDisconnected(w.clients)
    requires Exec(w, CapacitySteps(w, max)).Some?
    ensures var p := |w.clients| - 1;
      && CloseDefined(w, p) && EraseDefined(Close(w, p), p)
      && Exec(w, CapacitySteps(w, max)) == Some(Erase(Close(w, p), p))
  {
    hide Exec, Close, Erase, CloseDefined, EraseDefined;
    var p := |w.clients| - 1;
    ExecTwo(w, DoClose(p), DoErase(p));
  }

  lemma EvictSteps(w: World, max: int)
    requires |w.clients| == max && max >= 1 && SomeDisconnected(w.clients)
    ensures Exec(w, CapacitySteps(w, max)) == Some(Dropped(w, Longest(w.clients)))
  {
    ExecOne(w, DoEvict(Longest(w.clients)));
  }

  lemma ArrivalExec(w: World, input: Input)
    ensures Exec(w, ArrivalSteps(input)) == Some(AfterArrival(w, input))
  {
    if Arrives(input) {
      ExecOne(w, DoAccept(input.arrival.value.0, input.arrival.value.1));
    }
  }

  // ----- Going through a ping round client by client

  function PingUpTo(w: World, k: nat): World {
    w.(clients := seq(|w.clients|, i requires 0 <= i < |w.clients| => if i < k then Pinging(w.clients[i]) else w.clients[i]))
  }

  lemma PingNext(w: World, k: nat)
    requires k < |w.clients|
    ensures |PingUpTo(w, k).clients| == |w.clients| && PingOne(PingUpTo(w, k), k) == PingUpTo(w, k + 1)
  {
    assert PingOne(PingUpTo(w, k), k).clients == PingUpTo(w, k + 1).clients;
  }

  lemma NobodyPinged(w: World)
    ensures PingUpTo(w, 0) == w
  {
    assert PingUpTo(w, 0).clients == w.clients;
  }

  lemma EverybodyPinged(w: World)
    ensures PingUpTo(w, |w.clients|) == PingRound(w)
  {
    assert PingUpTo(w, |w.clients|).clients == PingRound(w).clients;
  }
}
