/** Small runs of the server, turn by turn: what one pass makes of one connection, one message
    or one hang-up when nothing else happens. */
module Scripts {
  import opened Rules
  import opened Session
  import opened Codec
  import opened Passes
  import opened RunTheory
  import opened PairTheory

  // ----- Turns

  function Comes(ip: string, sock: int): Turn {
    UpdateTurn(Input(Some((ip, sock)), map[]))
  }

  function Says(sock: int, item: string): Turn {
    UpdateTurn(Input(None, map[sock := Message(Print([item]))]))
  }

  function HangsUp(sock: int): Turn {
    UpdateTurn(Input(None, map[sock := Hangup]))
  }

  lemma {:induction false} GoAppend(w: World, a: seq<Turn>, b: seq<Turn>, max: int)
    ensures Go(w, a + b, max) == if Go(w, a, max).Some? then Go(Go(w, a, max).value, b, max) else None
    decreases |a|
  {
    hide Pass, PassDefined, RoundDefined, PingRound;
    if a == [] {
      assert a + b == b;
    } else {
      assert (a + b)[0] == a[0] && (a + b)[1..] == a[1..] + b;
      match a[0]
      case PingTurn => if RoundDefined(w) { GoAppend(PingRound(w), a[1..], b, max); }
      case UpdateTurn(input) => if PassDefined(w, input, max) { GoAppend(Pass(w, input, max), a[1..], b, max); }
    }
  }

  /** One more turn at the end. */
  lemma GoOn(w: World, ts: seq<Turn>, t: Turn, w1: World, r: Option<World>, max: int)
    requires Go(w, ts, max) == Some(w1) && Go(w1, [t], max) == r
    ensures Go(w, ts + [t], max) == r
  {
    GoAppend(w, ts, [t], max);
  }

  lemma GoOnce(w: World, t: Turn, max: int)
    ensures Go(w, [t], max) ==
      match t
      case PingTurn => if RoundDefined(w) then Some(PingRound(w)) else None
      case UpdateTurn(input) => if PassDefined(w, input, max) then Some(Pass(w, input, max)) else None
  {
    hide Pass, PassDefined, RoundDefined, PingRound;
    assert [t][1..] == [];
  }

  // ----- Passes

  predicate Clear(w: World, p: nat) {
    forall k :: p <= k < |w.clients| ==> !w.clients[k].toDisconnect && !w.clients[k].toErase
  }

  predicate Idle(w: World, k: nat, events: map<int, Event>) {
    k < |w.clients| && (w.clients[k].sock < 0 || EventOf(events, w.clients[k].sock) == Quiet)
  }

  /** The loop passes by clients that have nothing to say. */
  lemma {:induction false} LoopTo(w: World, p: nat, i: nat, events: map<int, Event>)
    requires p <= i <= |w.clients| && Clear(w, p) && forall k :: p <= k < i ==> Idle(w, k, events)
    ensures LoopSteps(w, p, events) == LoopSteps(w, i, events)
    decreases i - p
  {
    hide LoopSteps;
    if p < i {
      assert Idle(w, p, events);
      LoopSkipped(w, p, events);
      LoopTo(w, p + 1, i, events);
    }
  }

  lemma LoopIdle(w: World, p: nat, events: map<int, Event>)
    requires p <= |w.clients| && Clear(w, p) && forall k :: p <= k < |w.clients| ==> Idle(w, k, events)
    ensures LoopSteps(w, p, events) == []
  {
    LoopTo(w, p, |w.clients|, events);
    LoopDone(w, |w.clients|, events);
  }

  /** A pass is its phases. */
  lemma PassOf(w: World, input: Input, max: int, w1: World, w2: World)
    requires Exec(AfterArrival(w, input), CapacitySteps(AfterArrival(w, input), max)) == Some(w1)
    requires Exec(w1, LoopSteps(w1, 0, input.events)) == Some(w2)
    ensures Go(w, [UpdateTurn(input)], max) == Some(AllPaired(w2, ReadyFrom(w2.clients, 0)))
  {
    hide LoopSteps, CapacitySteps, PairSteps, AllPaired, ReadyFrom;
    var a, c := ArrivalSteps(input), CapacitySteps(AfterArrival(w, input), max);
    ArrivalExec(w, input);
    ExecAppend(w, a, c);
    var l := LoopSteps(w1, 0, input.events);
    PairStepsPair(w2, 0);
    ExecAppend(w1, l, PairSteps(w2, 0));
    ExecAppend(w, a + c, l + PairSteps(w2, 0));
    GoOnce(w, UpdateTurn(input), max);
  }

  lemma PassFails(w: World, input: Input, max: int, w1: World)
    requires Exec(AfterArrival(w, input), CapacitySteps(AfterArrival(w, input), max)) == Some(w1)
    requires Exec(w1, LoopSteps(w1, 0, input.events)) == None
    ensures Go(w, [UpdateTurn(input)], max) == None
  {
    hide LoopSteps, CapacitySteps, PairSteps;
    var a, c := ArrivalSteps(input), CapacitySteps(AfterArrival(w, input), max);
    ArrivalExec(w, input);
    ExecAppend(w, a, c);
    ExecAppend(w, a + c, LoopSteps(w1, 0, input.events));
    GoOnce(w, UpdateTurn(input), max);
  }

  predicate FewReady(cs: seq<ClientRec>) {
    forall i, j :: 0 <= i < j < |cs| ==> cs[i].state != Ready || cs[j].state != Ready
  }

  lemma NobodyPaired(w: World)
    requires FewReady(w.clients)
    ensures AllPaired(w, ReadyFrom(w.clients, 0)) == w
  {
    var rs := ReadyFrom(w.clients, 0);
    if |rs| >= 2 { TwoAreReady(w.clients); }
  }

  lemma TwoAreReady(cs: seq<ClientRec>)
    requires |ReadyFrom(cs, 0)| >= 2
    ensures !FewReady(cs)
  {
    var rs := ReadyFrom(cs, 0);
    assert cs[rs[0]].state == Ready && cs[rs[1]].state == Ready;
  }

  lemma BothPaired(w: World)
    requires |w.clients| == 2 && w.clients[0].state == Ready && w.clients[1].state == Ready
    ensures AllPaired(w, ReadyFrom(w.clients, 0)) == Started(w, 0, 1)
  {
    hide NewGame, Started;
    assert ReadyFrom(w.clients, 2) == [];
    assert ReadyFrom(w.clients, 1) == [1];
    assert ReadyFrom(w.clients, 0) == [0, 1];
    assert [0, 1][2..] == [];
  }

  // ----- A connection, a hang-up, a message

  lemma ArrivalTurn(w: World, ip: string, sock: int, max: int)
    requires sock > 0 && |w.clients| + 1 != max && Clear(w, 0) && FewReady(w.clients)
    ensures Go(w, [Comes(ip, sock)], max) == Some(Accept(w, ip, sock))
  {
    var input, w1 := Input(Some((ip, sock)), map[]), Accept(w, ip, sock);
    assert FewReady(w1.clients) && Clear(w1, 0);
    LoopIdle(w1, 0, map[]);
    NobodyPaired(w1);
    PassOf(w, input, max, w1, w1);
  }

  /** The server is full, and somebody disconnected makes room. */
  lemma EvictingTurn(w: World, ip: string, sock: int, max: int, i: nat)
    requires sock > 0 && |w.clients| + 1 == max && Clear(w, 0) && FewReady(w.clients)
    requires LongestDisconnected(Accept(w, ip, sock).clients, i)
    ensures var w1 := Accept(w, ip, sock);
      && CapacitySteps(w1, max) == [DoEvict(i)] && Go(w, [Comes(ip, sock)], max) == Some(Dropped(w1, i))
  {
    var input, w1 := Input(Some((ip, sock)), map[]), Accept(w, ip, sock);
    assert SomeDisconnected(w1.clients);
    SameLongest(w1.clients, i, Longest(w1.clients));
    EvictSteps(w1, max);
    var w2 := Dropped(w1, i);
    DroppedStill(w1, i);
    LoopIdle(w2, 0, map[]);
    NobodyPaired(w2);
    PassOf(w, input, max, w2, w2);
  }

  lemma DroppedStill(w: World, i: nat)
    requires i < |w.clients| && Clear(w, 0) && FewReady(w.clients)
    ensures Clear(Dropped(w, i), 0) && FewReady(Dropped(w, i).clients)
  {
  }

  lemma SameLongest(cs: seq<ClientRec>, i: nat, j: nat)
    requires LongestDisconnected(cs, i) && LongestDisconnected(cs, j)
    ensures i == j
  {
  }

  /** Only the client at `i` listens on the socket. */
  predicate HasSocket(w: World, i: nat, sock: int) {
    && sock >= 0 && i < |w.clients| && w.clients[i].sock == sock
    && forall k :: 0 <= k < |w.clients| && k != i ==> w.clients[k].sock != sock
  }

  lemma OthersIdle(w: World, i: nat, sock: int, e: Event)
    requires HasSocket(w, i, sock)
    ensures EventOf(map[sock := e], sock) == e
    ensures forall k :: 0 <= k < |w.clients| && k != i ==> Idle(w, k, map[sock := e])
  {
  }

  lemma HangupTurn(w: World, i: nat, sock: int, max: int)
    requires HasSocket(w, i, sock) && |w.clients| != max && Clear(w, 0) && FewReady(w.clients) && CloseDefined(w, i)
    ensures Go(w, [HangsUp(sock)], max) == Some(Close(w, i))
  {
    var input, w1 := Input(None, map[sock := Hangup]), Close(w, i);
    OthersIdle(w, i, sock, Hangup);
    LoopTo(w, 0, i, input.events);
    assert LoopSteps(w, i, input.events) == CloseAndGoOn(w, i, input.events);
    assert forall k :: i <= k < |w1.clients| ==> Idle(w1, k, input.events) by {
      assert forall k :: 0 <= k < |w.clients| && k != i ==> w1.clients[k] == w.clients[k];
    }
    assert FewReady(w1.clients) && Clear(w1, 0);
    LoopIdle(w1, i, input.events);
    ExecOne(w, DoClose(i));
    assert [DoClose(i)] + [] == [DoClose(i)];
    NobodyPaired(w1);
    PassOf(w, input, max, w, w1);
  }

  /** The text of a message that asks for `rq`. */
  predicate Asks(item: string, rq: Request) {
    IsItem(item) && RequestIn(item) == rq
  }

  lemma OneRequest(item: string, rq: Request)
    requires Asks(item, rq)
    ensures IsValidFormat(Print([item])) && Requests(Print([item])) == [rq] && WellFormed(rq)
  {
    hide RequestIn, IsItem;
    PrintIsValid([item]);
    ParsePrint([item]);
    ItemWellFormed(item);
  }

  lemma ServeOne(w: World, i: nat, rq: Request)
    requires StepDefined(w, DoServe(i, rq)) && Accepted(w, i, rq)
    ensures ServeSteps(w, i, [rq]) == [DoServe(i, rq)] && AllAccepted(w, i, [rq])
  {
    hide Accepted, Defined, Handle;
    assert [rq][1..] == [];
    assert ServeSteps(Handle(w, i, rq), i, []) == [] && AllAccepted(Handle(w, i, rq), i, []);
  }

  lemma OneMessage(w: World, i: nat, item: string, rq: Request, w': World)
    requires Asks(item, rq) && LeadsTo(w, i, rq, w')
    ensures MessageSteps(w, i, Print([item])) == [DoServe(i, rq)] && MessageAccepted(w, i, Print([item]))
  {
    hide Asks, Accepted, Defined, Handle, ServeSteps, AllAccepted;
    OneRequest(item, rq);
    ServeOne(w, i, rq);
  }

  lemma OneRefused(w: World, i: nat, item: string, rq: Request)
    requires Asks(item, rq) && !StepDefined(w, DoServe(i, rq))
    ensures Exec(w, MessageSteps(w, i, Print([item]))) == None
  {
    hide Asks, Accepted, StepDefined, Handle, AllAccepted;
    OneRequest(item, rq);
  }

  /** The client at `i` may ask for `rq`, and nothing else is going on. */
  ghost predicate MayAsk(w: World, i: nat, sock: int, max: int) {
    HasSocket(w, i, sock) && |w.clients| != max && Clear(w, 0)
  }

  /** The request is defined and accepted, and leads to `w'`. */
  ghost predicate LeadsTo(w: World, i: nat, rq: Request, w': World) {
    i < |w.clients| && WellFormed(rq) && Defined(w, i, rq) && Accepted(w, i, rq) && Handle(w, i, rq) == w' && Clear(w', i + 1)
  }

  /** A message that is accepted, in a pass in which nothing else happens. */
  lemma MessageTurn(w: World, i: nat, sock: int, item: string, rq: Request, w': World, max: int)
    requires MayAsk(w, i, sock, max) && Asks(item, rq) && LeadsTo(w, i, rq, w')
    ensures Go(w, [Says(sock, item)], max) == Some(AllPaired(w', ReadyFrom(w'.clients, 0)))
  {
    hide Asks, Accepted, Defined, Handle, IsItem, AllPaired, ReadyFrom, AreReady, LoopSteps, MessageSteps, CapacitySteps, Exec, Go;
    var buffer := Print([item]);
    var input := Input(None, map[sock := Message(buffer)]);
    OthersIdle(w, i, sock, Message(buffer));
    LoopTo(w, 0, i, input.events);
    OneMessage(w, i, item, rq, w');
    ExecOne(w, DoServe(i, rq));
    HandleSameFlags(w, i, rq);
    MessageLoopSteps(w, i, input.events, buffer);
    assert forall k :: i < k < |w'.clients| ==> Idle(w, k, input.events) && Idle(w', k, input.events);
    LoopIdle(w', i + 1, input.events);
    assert MessageSteps(w, i, buffer) + [] == MessageSteps(w, i, buffer);
    NoCapacitySteps(w, max);
    PassOf(w, input, max, w, w');
  }

  /** A message for which a lookup finds nothing. */
  lemma FailingTurn(w: World, i: nat, sock: int, item: string, rq: Request, max: int)
    requires MayAsk(w, i, sock, max) && Asks(item, rq) && !StepDefined(w, DoServe(i, rq))
    ensures Go(w, [Says(sock, item)], max) == None
  {
    hide Asks, StepDefined, IsItem;
    var buffer := Print([item]);
    var input := Input(None, map[sock := Message(buffer)]);
    OthersIdle(w, i, sock, Message(buffer));
    LoopTo(w, 0, i, input.events);
    OneRefused(w, i, item, rq);
    NoCapacitySteps(w, max);
    PassFails(w, input, max, w);
  }

  lemma NoCapacitySteps(w: World, max: int)
    requires |w.clients| != max
    ensures Exec(w, CapacitySteps(w, max)) == Some(w)
  {
  }

  // ----- Messages

  lemma WordItem(word: string, rq: Request)
    requires Literal(word) in ALTERNATIVES && rq == RequestOf([word])
    ensures Asks(word, rq)
  {
    assert Fits(word, Literal(word));
    LiteralTokens(word);
  }

  lemma TaggedItem(key: string, value: string, a: Alternative)
    requires a in ALTERNATIVES && a.Tagged? && a.tag == key + ":" && a.lo <= |value| <= a.hi && AllIn(value, a.chars)
    ensures Asks(a.tag + value, RequestOf([key, value]))
  {
    var w := a.tag + value;
    assert w[|a.tag|..] == value && Fits(w, a);
    AlternativeCases(a);
    assert a.tag[..|a.tag| - 1] == key;
    TaggedTokens(w, a);
  }
}
