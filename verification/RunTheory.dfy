/** Whole runs of the server: ping rounds and update passes in any order. */
module RunTheory {
  import opened Rules
  import opened RulesTheory
  import opened MoveText
  import opened Session
  import opened Protocol
  import opened Abstraction
  import opened SessionTheory
  import opened RequestTheory
  import opened Codec
  import opened Passes

  // ----- Starting a game

  predicate BothReady(w: World, i: nat, j: nat) {
    i < j < |w.clients| && w.clients[i].state == Ready && w.clients[j].state == Ready
  }

  function Started(w: World, i: nat, j: nat): World
    requires i < |w.clients| && j < |w.clients|
  {
    var w' := CreateRoom(w, w.clients[i].nick, w.clients[j].nick);
    w'.(clients := w.clients[i := InGame(w.clients[i], PlayingOnTurn, w'.roomsTotal)]
                            [j := InGame(w.clients[j], PlayingOnStand, w'.roomsTotal)])
  }

  lemma StartResult(w: World, i: nat, j: nat)
    requires i < |w.clients| && j < |w.clients| && i != j
    ensures StartGame(w, i, j) == Started(w, i, j)
  {
    assert StartGame(w, i, j).clients == Started(w, i, j).clients;
  }

  /** A ready client has a name and is in the lobby. */
  lemma ReadyInLobby(w: World, i: nat)
    requires Sound(w) && i < |w.clients| && w.clients[i].state == Ready
    ensures w.clients[i].nick != "" && w.clients[i].nick in View(w).players
    ensures View(w).players[w.clients[i].nick] == Player(Ready, 0)
  {
    assert ClientOk(w.clients[i]);
    FindOwn(w.clients, i);
    ModeFits(w, i);
  }

  function InGame(c: ClientRec, mode: State, id: int): ClientRec {
    WithState(c, mode).(room := id)
  }

  lemma InGameOk(c: ClientRec, mode: State, id: int)
    requires ClientOk(c) && c.state == Ready && Playing(mode)
    ensures ClientOk(InGame(c, mode, id)) && PlayerOf(InGame(c, mode, id)) == Player(mode, id)
    ensures InGame(c, mode, id).nick == c.nick
  {
  }

  lemma StartedSound(w: World, i: nat, j: nat)
    requires Sound(w) && BothReady(w, i, j)
    ensures var w' := Started(w, i, j);
      Sound(w') && Starts(View(w), View(w'), w.clients[i].nick, w.clients[j].nick, w'.roomsTotal)
  {
    var n, m, id := w.clients[i].nick, w.clients[j].nick, w.roomsTotal + 1;
    ReadyInLobby(w, i);
    ReadyInLobby(w, j);
    assert n != m;
    StartedView(w, i, j);
    StartConsistent(View(w), View(Started(w, i, j)), n, m, id);
  }

  lemma StartedView(w: World, i: nat, j: nat)
    requires Sound(w) && BothReady(w, i, j) && w.clients[i].nick != "" && w.clients[j].nick != ""
    ensures var n, m, id := w.clients[i].nick, w.clients[j].nick, w.roomsTotal + 1; var w' := Started(w, i, j);
      && NicksDistinct(w'.clients) && RoomIdsOk(w') && ClientsOk(w'.clients) && id !in View(w).tables
      && View(w') == Abstract(View(w).players[n := Player(PlayingOnTurn, id)][m := Player(PlayingOnStand, id)],
                              View(w).tables[id := Table(n, m)])
  {
    hide NewGame, InGame, PlayerOf;
    var c, d, id := w.clients[i], w.clients[j], w.roomsTotal + 1;
    InGameOk(c, PlayingOnTurn, id);
    InGameOk(d, PlayingOnStand, id);
    AddTable(w, c.nick, d.nick);
    TwoOthers(w.clients, i, j, InGame(c, PlayingOnTurn, id), InGame(d, PlayingOnStand, id));
    TwoClientsOk(w.clients, i, j, InGame(c, PlayingOnTurn, id), InGame(d, PlayingOnStand, id));
  }

  function SeenStarting(w: World, i: nat, j: nat): seq<Visible>
    requires i < |w.clients| && j < |w.clients|
  {
    [Opening(w.clients[i].nick, w.clients[j].nick, w.roomsTotal + 1)]
  }

  lemma StartedGames(w: World, i: nat, j: nat)
    requires WorldOk(w) && BothReady(w, i, j)
    ensures GamesOk(Started(w, i, j).rooms) && Started(w, i, j).roomsTotal == w.roomsTotal + 1
  {
    ReadyInLobby(w, i);
    ReadyInLobby(w, j);
    var n, m := w.clients[i].nick, w.clients[j].nick;
    assert n != m;
    assert Started(w, i, j).rooms == w.rooms + [RoomRec(w.roomsTotal + 1, NewGame(n, m))];
    hide NewGame, GameOk, Sound, GamesOk, Started;
    StartOk(n, m);
    GamesPlus(w.rooms, RoomRec(w.roomsTotal + 1, NewGame(n, m)));
  }

  lemma GamesPlus(rs: seq<RoomRec>, r: RoomRec)
    requires GamesOk(rs) && GameOk(r.game)
    ensures GamesOk(rs + [r])
  {
    hide GameOk;
  }

  /** Starting a game between two ready clients. */
  lemma StartKeeps(w: World, i: nat, j: nat)
    requires WorldOk(w) && BothReady(w, i, j)
    ensures WorldOk(StartGame(w, i, j)) && Follows(View(w), SeenStarting(w, i, j), View(StartGame(w, i, j)))
  {
    var w' := Started(w, i, j);
    StartResult(w, i, j);
    StartedSound(w, i, j);
    StartedGames(w, i, j);
    hide StartGame, View, Sound, GamesOk, Started, Starts, Follows;
    FollowsOne(View(w), SeenStarting(w, i, j)[0], View(w'));
  }

  // ----- One small step

  /** What the server itself sees to before a step. */
  ghost predicate Scheduled(w: World, s: Step) {
    match s
    case DoAccept(ip, sock) => sock > 0
    case DoEvict(i) => i < |w.clients| && w.clients[i].state == Disconnected
    case DoClose(i) => i < |w.clients|
    case DoUnflag(i) => i < |w.clients|
    case DoErase(i) => i < |w.clients| && (w.clients[i].nick == "" || w.clients[i].state == Disconnected)
    case DoServe(i, rq) => i < |w.clients| && Alive(w.clients[i]) && WellFormed(rq)
    case DoStart(i, j) => BothReady(w, i, j)
  }

  /** What it leaves to the outside: that requests come when they may, and that a client
      evicted for lack of space is not in a game. */
  ghost predicate Polite(w: World, s: Step) {
    match s
    case DoEvict(i) => i < |w.clients| ==> w.clients[i].nick == "" || w.clients[i].room == 0
    case DoServe(i, rq) => i < |w.clients| && WellFormed(rq) ==> Safe(w, i, rq)
    case _ => true
  }

  /** The events a step may bring about.  Accepting and closing connections and clearing flags
      cannot be seen; erasing and evicting concern the one client, and serving is for the
      request to say. */
  ghost function SeenStep(w: World, s: Step): seq<Visible> {
    match s
    case DoEvict(i) => if i < |w.clients| then SeenDropping(w.clients[i]) else []
    case DoErase(i) => if i < |w.clients| then SeenErasing(w.clients[i]) else []
    case DoServe(i, rq) => if i < |w.clients| && WellFormed(rq) then SeenRequest(w, i, rq) else []
    case DoStart(i, j) => if i < |w.clients| && j < |w.clients| then SeenStarting(w, i, j) else []
    case _ => []
  }

  /** A scheduled step follows no dangling lookup and keeps the server in order exactly when
      it is polite; seen from outside it is then its own events, and nothing else. */
  lemma StepExactly(w: World, s: Step)
    requires WorldOk(w) && Scheduled(w, s)
    ensures Polite(w, s) <==> StepDefined(w, s) && WorldOk(Apply(w, s))
    ensures Polite(w, s) ==> Follows(View(w), SeenStep(w, s), View(Apply(w, s)))
  {
    hide Exact, Polite, StepDefined, WorldOk, Apply, Follows, View, SeenStep, Scheduled;
    match s {
      case DoAccept(ip, sock) => ConnectionsExact(w, s);
      case DoClose(i) => ConnectionsExact(w, s);
      case DoUnflag(i) => ConnectionsExact(w, s);
      case DoEvict(i) => EvictExact(w, i);
      case DoErase(i) => EraseExact(w, i);
      case DoServe(i, rq) => ServeExact(w, i, rq);
      case DoStart(i, j) => StartExact(w, i, j);
    }
    ExactMeans(w, s);
  }

  /** What StepExactly says of a step. */
  ghost predicate Exact(w: World, s: Step) {
    && (Polite(w, s) <==> StepDefined(w, s) && WorldOk(Apply(w, s)))
    && (Polite(w, s) ==> Follows(View(w), SeenStep(w, s), View(Apply(w, s))))
  }

  lemma ExactMeans(w: World, s: Step)
    requires Exact(w, s)
    ensures Polite(w, s) <==> StepDefined(w, s) && WorldOk(Apply(w, s))
    ensures Polite(w, s) ==> Follows(View(w), SeenStep(w, s), View(Apply(w, s)))
  {
    hide Polite, StepDefined, WorldOk, Apply, Follows, View, SeenStep;
  }

  lemma ConnectionsExact(w: World, s: Step)
    requires WorldOk(w) && Scheduled(w, s) && (s.DoAccept? || s.DoClose? || s.DoUnflag?)
    ensures Exact(w, s)
  {
    match s
    case DoAccept(ip, sock) => AcceptHidden(w, ip, sock);
    case DoClose(i) => CloseHidden(w, i);
    case DoUnflag(i) => UnflagHidden(w, i);
  }

  lemma EvictExact(w: World, i: nat)
    requires WorldOk(w) && Scheduled(w, DoEvict(i))
    ensures Exact(w, DoEvict(i))
  {
    hide WorldOk, View, Follows, Dropped;
    EvictExactly(w, i);
  }

  lemma EraseExact(w: World, i: nat)
    requires WorldOk(w) && Scheduled(w, DoErase(i))
    ensures Exact(w, DoErase(i))
  {
    hide WorldOk, View, Follows, Erase, EraseDefined;
    EraseKeeps(w, i);
  }

  lemma ServeExact(w: World, i: nat, rq: Request)
    requires WorldOk(w) && Scheduled(w, DoServe(i, rq))
    ensures Exact(w, DoServe(i, rq))
  {
    hide WorldOk, View, Follows, Handle, Defined, Safe, SeenRequest, Alive;
    HandleExactly(w, i, rq);
  }

  lemma StartExact(w: World, i: nat, j: nat)
    requires WorldOk(w) && Scheduled(w, DoStart(i, j))
    ensures Exact(w, DoStart(i, j))
  {
    hide WorldOk, View, Follows, StartGame, SeenStarting;
    StartKeeps(w, i, j);
  }

  // ----- Steps nobody sees

  /** Requests that ask for no change of the game or the lobby, and find none to make. */
  predicate Reassuring(w: World, i: nat, rq: Request)
    requires i < |w.clients|
  {
    var c := w.clients[i];
    match rq
    case Ping => true
    case Chat(_) => true
    case Pong => Steady(c)
    case Connect(nick) =>
      var k := FindNickAndIp(w.clients, nick, c.ip);
      HasNick(w, nick) && (k < |w.clients| ==>
        match w.clients[k].state
        case Pinged => Steady(c)
        case Lost => Steady(c)
        case Disconnected => c.nick == ""
        case _ => true)
    case _ => false
  }

  lemma SteadyExactly(w: World, i: nat)
    requires WorldOk(w) && i < |w.clients| && Alive(w.clients[i]) && PongSafe(w.clients[i])
    ensures View(Put(w, i, Restored(w.clients[i]))) == View(w) <==> Steady(w.clients[i])
  {
    var c := w.clients[i];
    var w' := Put(w, i, Restored(c));
    if Steady(c) {
      HiddenChange(w, i, Restored(c));
    } else {
      RestoreExactly(w, i);
      FindOwn(w.clients, i);
      FindOwn(w'.clients, i);
    }
  }

  predicate RestoresOrTakesOver(w: World, i: nat, rq: Request)
    requires i < |w.clients|
  {
    rq.Ping? || rq.Pong? || rq.Chat? || (rq.Connect? && HasNick(w, rq.nick))
  }

  /** Pings, pongs, chat, and both kinds of reconnection leave what is seen from outside
      unchanged exactly when the client was steady, or took over without giving up a name of
      its own. */
  lemma HiddenExactly(w: World, i: nat, rq: Request)
    requires WorldOk(w) && i < |w.clients| && Alive(w.clients[i]) && WellFormed(rq) && Safe(w, i, rq)
    requires RestoresOrTakesOver(w, i, rq)
    ensures Defined(w, i, rq)
    ensures View(Handle(w, i, rq)) == View(w) <==> Reassuring(w, i, rq)
  {
    HandleExactly(w, i, rq);
    match rq
    case Ping => if Transient(w.clients[i].state) { SteadyExactly(w, i); }
    case Pong => SteadyExactly(w, i);
    case Chat(_) =>
    case Connect(nick) =>
      var k := FindNickAndIp(w.clients, nick, w.clients[i].ip);
      if k < |w.clients| { ReconnectSeen(w, i, k); }
  }

  lemma ReconnectSeen(w: World, i: nat, k: nat)
    requires WorldOk(w) && i < |w.clients| && k < |w.clients| && Alive(w.clients[i]) && w.clients[k].nick != ""
    requires FindNickAndIp(w.clients, w.clients[k].nick, w.clients[i].ip) == k && HasNick(w, w.clients[k].nick)
    requires ConnectSafe(w, i, w.clients[k].nick)
    ensures View(Reconnect(w, i, k, w.clients[k].nick)) == View(w) <==> Reassuring(w, i, Connect(w.clients[k].nick))
  {
    ReconnectLookups(w, i, k);
    match w.clients[k].state
    case Pinged => SteadyExactly(w, i);
    case Lost => SteadyExactly(w, i);
    case Disconnected =>
      assert ClientOk(w.clients[k]) && i != k;
      if w.clients[i].nick == "" { TakeOverHidden(w, i, k); }
      else { TakeOverNamed(w, i, k); }
    case _ =>
  }

  // ----- Many small steps

  ghost predicate AllScheduled(w: World, ss: seq<Step>)
    decreases |ss|
  {
    ss == [] || (Scheduled(w, ss[0]) && (StepDefined(w, ss[0]) ==> AllScheduled(Apply(w, ss[0]), ss[1..])))
  }

  ghost predicate AllPolite(w: World, ss: seq<Step>)
    decreases |ss|
  {
    ss == [] || (Polite(w, ss[0]) && (StepDefined(w, ss[0]) ==> AllPolite(Apply(w, ss[0]), ss[1..])))
  }

  /** The events of several steps, in order. */
  ghost function SeenSteps(w: World, ss: seq<Step>): seq<Visible>
    decreases |ss|
  {
    if ss == [] || !StepDefined(w, ss[0]) then []
    else SeenStep(w, ss[0]) + SeenSteps(Apply(w, ss[0]), ss[1..])
  }

  lemma {:induction false} StepsKeep(w: World, ss: seq<Step>)
    requires WorldOk(w) && AllScheduled(w, ss) && AllPolite(w, ss)
    ensures Exec(w, ss).Some? && WorldOk(Exec(w, ss).value)
    ensures Follows(View(w), SeenSteps(w, ss), View(Exec(w, ss).value))
    decreases |ss|
  {
    if ss != [] {
      hide WorldOk, View, SeenStep, Polite, Scheduled, Follows;
      StepExactly(w, ss[0]);
      var w1 := Apply(w, ss[0]);
      StepsKeep(w1, ss[1..]);
      FollowsAppend(View(w), SeenStep(w, ss[0]), View(w1), SeenSteps(w1, ss[1..]), View(Exec(w, ss).value));
    } else {
      hide WorldOk, View;
    }
  }

  // ----- A pass is scheduled properly

  lemma {:induction false} PoliteAppend(w: World, a: seq<Step>, b: seq<Step>)
    ensures AllPolite(w, a + b) <==> AllPolite(w, a) && (Exec(w, a).Some? ==> AllPolite(Exec(w, a).value, b))
    decreases |a|
  {
    if a == [] {
      assert a + b == b;
    } else {
      assert (a + b)[1..] == a[1..] + b;
      if StepDefined(w, a[0]) { PoliteAppend(Apply(w, a[0]), a[1..], b); }
    }
  }

  lemma {:induction false} ScheduledAppend(w: World, a: seq<Step>, b: seq<Step>)
    ensures AllScheduled(w, a + b) <==> AllScheduled(w, a) && (Exec(w, a).Some? ==> AllScheduled(Exec(w, a).value, b))
    decreases |a|
  {
    if a == [] {
      assert a + b == b;
    } else {
      assert (a + b)[1..] == a[1..] + b;
      if StepDefined(w, a[0]) { ScheduledAppend(Apply(w, a[0]), a[1..], b); }
    }
  }

  /** Serving a safe request leaves the client fit to be served. */
  lemma SafeKeepsAlive(w: World, i: nat, rq: Request)
    requires WorldOk(w) && i < |w.clients| && Alive(w.clients[i]) && WellFormed(rq) && Safe(w, i, rq)
    ensures Defined(w, i, rq) && i < |Handle(w, i, rq).clients| && Alive(Handle(w, i, rq).clients[i])
  {
    HandleExactly(w, i, rq);
    HandleSameFlags(w, i, rq);
    if rq.Connect? {
      TakeOverSpares(w, i, rq.nick);
    }
  }

  lemma TakeOverSpares(w: World, i: nat, nick: string)
    requires WorldOk(w) && i < |w.clients| && Alive(w.clients[i]) && nick != "" && ConnectSafe(w, i, nick)
    ensures !Connecting(w, i, nick).clients[i].toErase
  {
    var k := FindNickAndIp(w.clients, nick, w.clients[i].ip);
    if HasNick(w, nick) && k < |w.clients| {
      ReconnectLookups(w, i, k);
      if w.clients[k].state == Disconnected {
        assert ClientOk(w.clients[k]) && i != k;
        TakeOverClients(w, i, k);
      }
    }
  }

  lemma {:induction false} ServeScheduled(w: World, i: nat, rqs: seq<Request>)
    requires WorldOk(w) && i < |w.clients| && Alive(w.clients[i]) && AllWellFormed(rqs)
    requires AllPolite(w, ServeSteps(w, i, rqs))
    ensures AllScheduled(w, ServeSteps(w, i, rqs))
    decreases |rqs|
  {
    hide WorldOk, Handle, Defined, Safe, Alive;
    if rqs != [] {
      var ss := ServeSteps(w, i, rqs);
      assert ss[0] == DoServe(i, rqs[0]);
      SafeKeepsAlive(w, i, rqs[0]);
      if Accepted(w, i, rqs[0]) {
        assert ss[1..] == ServeSteps(Handle(w, i, rqs[0]), i, rqs[1..]);
        HandleExactly(w, i, rqs[0]);
        ServeScheduled(Handle(w, i, rqs[0]), i, rqs[1..]);
      } else {
        assert ss[1..] == [];
      }
    }
  }

  lemma MessageScheduled(w: World, i: nat, buffer: string)
    requires WorldOk(w) && i < |w.clients| && Alive(w.clients[i])
    requires AllPolite(w, MessageSteps(w, i, buffer))
    ensures AllScheduled(w, MessageSteps(w, i, buffer))
    ensures Exec(w, MessageSteps(w, i, buffer)).Some? && WorldOk(Exec(w, MessageSteps(w, i, buffer)).value)
  {
    if IsValidFormat(buffer) {
      RequestsWellFormed(buffer);
      ServeScheduled(w, i, Requests(buffer));
    }
    StepsKeep(w, MessageSteps(w, i, buffer));
  }

  lemma OneStepAppend(w: World, s: Step, ss: seq<Step>)
    requires StepDefined(w, s)
    ensures AllPolite(w, [s] + ss) <==> Polite(w, s) && AllPolite(Apply(w, s), ss)
    ensures AllScheduled(w, [s] + ss) <==> Scheduled(w, s) && AllScheduled(Apply(w, s), ss)
  {
    assert ([s] + ss)[1..] == ss;
  }

  lemma FlaggedSteps(w: World, p: nat, events: map<int, Event>)
    requires p < |w.clients| && w.clients[p].toDisconnect && CloseDefined(w, p)
    ensures LoopSteps(w, p, events) ==
      [DoClose(p)] + ([DoUnflag(p)] + LoopSteps(Unflag(Close(w, p), p), p, events))
  {
    assert [DoClose(p), DoUnflag(p)] == [DoClose(p)] + [DoUnflag(p)];
  }

  lemma {:induction false} FlaggedScheduled(w: World, p: nat, events: map<int, Event>)
    requires WorldOk(w) && p < |w.clients| && w.clients[p].toDisconnect
    requires AllPolite(w, LoopSteps(w, p, events))
    ensures AllScheduled(w, LoopSteps(w, p, events))
    decreases |w.clients| - p, 1, Flag(w.clients[p].sock >= 0), 0
  {
    hide WorldOk, AllPolite, AllScheduled, LoopSteps, CloseDefined;
    StepDefinedWhenOk(w, p);
    FlaggedSteps(w, p, events);
    var w1 := Close(w, p);
    var rest := LoopSteps(Unflag(w1, p), p, events);
    StepThen(w, DoClose(p), [DoUnflag(p)] + rest);
    StepThen(w1, DoUnflag(p), rest);
    LoopScheduled(Unflag(w1, p), p, events);
  }

  lemma StepDefinedWhenOk(w: World, p: nat)
    requires WorldOk(w) && p < |w.clients|
    ensures CloseDefined(w, p)
  {
    CloseHidden(w, p);
  }

  lemma MessageLoopSteps(w: World, p: nat, events: map<int, Event>, buffer: string)
    requires Served(w, p) && EventOf(events, w.clients[p].sock) == Message(buffer)
    requires Exec(w, MessageSteps(w, p, buffer)).Some?
    ensures var w' := Exec(w, MessageSteps(w, p, buffer)).value;
      && SameFlags(w, w')
      && LoopSteps(w, p, events) == MessageSteps(w, p, buffer) +
           (if MessageAccepted(w, p, buffer) then LoopSteps(w', p + 1, events) else CloseAndGoOn(w', p, events))
  {
    MessageSameFlags(w, p, buffer);
  }

  lemma MessageFirst(w: World, p: nat, events: map<int, Event>, buffer: string)
    requires Served(w, p) && EventOf(events, w.clients[p].sock) == Message(buffer)
    ensures MessageSteps(w, p, buffer) <= LoopSteps(w, p, events)
  {
    hide MessageSteps, CloseAndGoOn;
  }

  /** What the loop does after the message of the client at `p`. */
  ghost function AfterMessage(w: World, p: nat, events: map<int, Event>, accepted: bool): seq<Step>
    requires p < |w.clients| && !w.clients[p].toDisconnect && w.clients[p].sock >= 0
  {
    if accepted then LoopSteps(w, p + 1, events) else CloseAndGoOn(w, p, events)
  }

  lemma MessageThen(w: World, p: nat, events: map<int, Event>, buffer: string)
    requires WorldOk(w) && Served(w, p) && Alive(w.clients[p])
    requires EventOf(events, w.clients[p].sock) == Message(buffer)
    requires AllPolite(w, LoopSteps(w, p, events))
    ensures Exec(w, MessageSteps(w, p, buffer)).Some?
    ensures var w' := Exec(w, MessageSteps(w, p, buffer)).value;
      && WorldOk(w') && SameFlags(w, w')
      && var rest := AfterMessage(w', p, events, MessageAccepted(w, p, buffer));
         AllPolite(w', rest) && (AllScheduled(w', rest) ==> AllScheduled(w, LoopSteps(w, p, events)))
  {
    MessageFirst(w, p, events, buffer);
    var ss := MessageSteps(w, p, buffer);
    var rest := LoopSteps(w, p, events)[|ss|..];
    hide WorldOk, LoopSteps, CloseAndGoOn, MessageSteps, MessageAccepted, Exec, AllPolite, AllScheduled, Alive;
    assert LoopSteps(w, p, events) == ss + rest;
    PoliteAppend(w, ss, rest);
    ScheduledAppend(w, ss, rest);
    MessageScheduled(w, p, buffer);
    MessageLoopSteps(w, p, events, buffer);
    assert rest == AfterMessage(Exec(w, ss).value, p, events, MessageAccepted(w, p, buffer));
  }

  lemma {:induction false} MessageLoopScheduled(w: World, p: nat, events: map<int, Event>, buffer: string)
    requires WorldOk(w) && Served(w, p) && Alive(w.clients[p])
    requires EventOf(events, w.clients[p].sock) == Message(buffer)
    requires AllPolite(w, LoopSteps(w, p, events))
    ensures AllScheduled(w, LoopSteps(w, p, events))
    decreases |w.clients| - p, 0, 1, 1
  {
    hide WorldOk, LoopSteps, CloseAndGoOn, MessageSteps, MessageAccepted, Exec, AllPolite, AllScheduled, Alive;
    MessageThen(w, p, events, buffer);
    var w' := Exec(w, MessageSteps(w, p, buffer)).value;
    if MessageAccepted(w, p, buffer) {
      LoopScheduled(w', p + 1, events);
    } else {
      CloseScheduled(w', p, events);
    }
  }

  /** One step that is scheduled and polite, and then others. */
  lemma StepThen(w: World, s: Step, ss: seq<Step>)
    requires WorldOk(w) && Scheduled(w, s)
    requires AllPolite(w, [s] + ss)
    ensures StepDefined(w, s) && WorldOk(Apply(w, s)) && AllPolite(Apply(w, s), ss)
    ensures AllScheduled(Apply(w, s), ss) ==> AllScheduled(w, [s] + ss)
  {
    assert ([s] + ss)[1..] == ss;
    StepExactly(w, s);
  }

  /** Whatever happens on the sockets, the steps of the loop over the clients are scheduled
      properly, provided the requests among them are polite. */
  lemma {:induction false} LoopScheduled(w: World, p: nat, events: map<int, Event>)
    requires WorldOk(w) && AllPolite(w, LoopSteps(w, p, events))
    ensures AllScheduled(w, LoopSteps(w, p, events))
    decreases |w.clients| - p, Flag(p < |w.clients| && w.clients[p].toDisconnect),
      Flag(p < |w.clients| && w.clients[p].sock >= 0)
  {
    if p < |w.clients| {
      var c := w.clients[p];
      assert ClientOk(c);
      if c.toDisconnect {
        FlaggedScheduled(w, p, events);
      } else if c.toErase {
        EraseScheduled(w, p, events);
      } else if c.sock < 0 || EventOf(events, c.sock) == Quiet {
        LoopScheduled(w, p + 1, events);
      } else {
        match EventOf(events, c.sock)
        case Quiet =>
        case Failed => CloseScheduled(w, p, events);
        case Hangup => CloseScheduled(w, p, events);
        case Message(buffer) => MessageLoopScheduled(w, p, events, buffer);
      }
    }
  }

  lemma EraseSteps(w: World, p: nat, events: map<int, Event>)
    requires WorldOk(w) && p < |w.clients| && !w.clients[p].toDisconnect && w.clients[p].toErase
    ensures w.clients[p].nick == "" || w.clients[p].state == Disconnected
    ensures LoopSteps(w, p, events) == [DoErase(p)] + LoopSteps(Erase(w, p), p, events)
    ensures |Erase(w, p).clients| < |w.clients|
  {
    assert ClientOk(w.clients[p]);
    EraseKeeps(w, p);
    hide WorldOk, EraseDefined;
    EraseFirst(w, p, events);
  }

  lemma EraseFirst(w: World, p: nat, events: map<int, Event>)
    requires p < |w.clients| && !w.clients[p].toDisconnect && w.clients[p].toErase && EraseDefined(w, p)
    ensures LoopSteps(w, p, events) == [DoErase(p)] + LoopSteps(Erase(w, p), p, events)
    ensures |Erase(w, p).clients| < |w.clients|
  {
  }

  lemma {:induction false} EraseScheduled(w: World, p: nat, events: map<int, Event>)
    requires WorldOk(w) && p < |w.clients| && !w.clients[p].toDisconnect && w.clients[p].toErase
    requires AllPolite(w, LoopSteps(w, p, events))
    ensures AllScheduled(w, LoopSteps(w, p, events))
    decreases |w.clients| - p, 0, Flag(w.clients[p].sock >= 0), 0
  {
    hide WorldOk, AllPolite, AllScheduled, LoopSteps, Erase;
    EraseSteps(w, p, events);
    StepThen(w, DoErase(p), LoopSteps(Erase(w, p), p, events));
    LoopScheduled(Erase(w, p), p, events);
  }

  lemma {:induction false} CloseScheduled(w: World, p: nat, events: map<int, Event>)
    requires WorldOk(w) && p < |w.clients| && !w.clients[p].toDisconnect && w.clients[p].sock >= 0
    requires AllPolite(w, CloseAndGoOn(w, p, events))
    ensures AllScheduled(w, CloseAndGoOn(w, p, events))
    decreases |w.clients| - p, 0, 1, 0
  {
    CloseHidden(w, p);
    OneStepAppend(w, DoClose(p), LoopSteps(Close(w, p), p, events));
    LoopScheduled(Close(w, p), p, events);
  }

  lemma PairFound(w: World, i: nat, j: nat, p: nat)
    requires p <= |w.clients| && i == NextReady(w.clients, p) < |w.clients| && j == NextReady(w.clients, i + 1) < |w.clients|
    ensures BothReady(w, i, j)
  {
  }

  lemma {:induction false} PairScheduled(w: World, p: nat)
    requires WorldOk(w) && p <= |w.clients|
    ensures AllScheduled(w, PairSteps(w, p)) && AllPolite(w, PairSteps(w, p))
    decreases |w.clients| - p
  {
    var i := NextReady(w.clients, p);
    if i == |w.clients| || NextReady(w.clients, i + 1) == |w.clients| {
      PairStepsNone(w, p);
    } else {
      PairMore(w, p, i, NextReady(w.clients, i + 1));
    }
  }

  lemma {:induction false} PairMore(w: World, p: nat, i: nat, j: nat)
    requires WorldOk(w) && p <= |w.clients|
    requires i == NextReady(w.clients, p) < |w.clients| && j == NextReady(w.clients, i + 1) < |w.clients|
    ensures AllScheduled(w, PairSteps(w, p)) && AllPolite(w, PairSteps(w, p))
    decreases |w.clients| - p, 0
  {
    hide WorldOk, AllPolite, AllScheduled, PairSteps, StartGame;
    PairFound(w, i, j, p);
    PairStepsFirst(w, p, i, j);
    StartKeeps(w, i, j);
    PairScheduled(StartGame(w, i, j), j + 1);
    StartThen(w, i, j, PairSteps(StartGame(w, i, j), j + 1));
  }

  lemma StartThen(w: World, i: nat, j: nat, ss: seq<Step>)
    requires WorldOk(w) && BothReady(w, i, j)
    requires AllScheduled(StartGame(w, i, j), ss) && AllPolite(StartGame(w, i, j), ss)
    ensures AllScheduled(w, [DoStart(i, j)] + ss) && AllPolite(w, [DoStart(i, j)] + ss)
  {
    hide WorldOk, StartGame, AllScheduled, AllPolite;
    OneStepAppend(w, DoStart(i, j), ss);
  }

  lemma ClosedLast(w: World, p: nat)
    requires WorldOk(w) && p < |w.clients|
    ensures Scheduled(w, DoClose(p)) && StepDefined(w, DoClose(p))
    ensures Scheduled(Apply(w, DoClose(p)), DoErase(p))
  {
    assert ClientOk(w.clients[p]);
    CloseHidden(w, p);
  }

  lemma OneScheduled(w: World, s: Step)
    requires Scheduled(w, s)
    ensures AllScheduled(w, [s])
  {
    assert [s][1..] == [];
  }

  lemma CapacityScheduled(w: World, max: int)
    requires WorldOk(w)
    ensures AllScheduled(w, CapacitySteps(w, max))
  {
    if |w.clients| == max && max >= 1 {
      if SomeDisconnected(w.clients) {
        OneScheduled(w, DoEvict(Longest(w.clients)));
      } else {
        var p := |w.clients| - 1;
        hide WorldOk, Apply, AllScheduled, StepDefined;
        ClosedLast(w, p);
        OneScheduled(Apply(w, DoClose(p)), DoErase(p));
        OneStepAppend(w, DoClose(p), [DoErase(p)]);
        assert [DoClose(p), DoErase(p)] == [DoClose(p)] + [DoErase(p)];
      }
    }
  }

  lemma ArrivalScheduled(w: World, input: Input)
    requires WorldOk(w)
    ensures AllScheduled(w, ArrivalSteps(input)) && AllPolite(w, ArrivalSteps(input))
    ensures Exec(w, ArrivalSteps(input)) == Some(AfterArrival(w, input)) && WorldOk(AfterArrival(w, input))
  {
    if Arrives(input) {
      AcceptHidden(w, input.arrival.value.0, input.arrival.value.1);
    }
  }

  /** An update pass in which all requests are polite, and nobody in a game is evicted,
      runs to its end and keeps the server in order, whatever the sockets report. */
  lemma PassKeeps(w: World, input: Input, max: int)
    requires WorldOk(w) && AllPolite(w, PassSteps(w, input, max))
    ensures PassDefined(w, input, max) && WorldOk(Pass(w, input, max))
    ensures AllScheduled(w, PassSteps(w, input, max))
    ensures Follows(View(w), SeenSteps(w, PassSteps(w, input, max)), View(Pass(w, input, max)))
  {
    var a, c := ArrivalSteps(input), CapacitySteps(AfterArrival(w, input), max);
    var rest := PassSteps(w, input, max)[|a + c|..];
    assert PassSteps(w, input, max) == (a + c) + rest;
    PoliteAppend(w, a + c, rest);
    PoliteAppend(w, a, c);
    ArrivalScheduled(w, input);
    CapacityScheduled(AfterArrival(w, input), max);
    ScheduledAppend(w, a, c);
    StepsKeep(w, a + c);
    var w1 := Exec(w, a + c).value;
    LoopAndPairsScheduled(w1, input.events, rest);
    ScheduledAppend(w, a + c, rest);
    StepsKeep(w, PassSteps(w, input, max));
  }

  lemma LoopAndPairsScheduled(w: World, events: map<int, Event>, rest: seq<Step>)
    requires WorldOk(w) && AllPolite(w, rest)
    requires var l := LoopSteps(w, 0, events);
      rest == if Exec(w, l).None? then l else l + PairSteps(Exec(w, l).value, 0)
    ensures AllScheduled(w, rest)
  {
    var l := LoopSteps(w, 0, events);
    var pairs := rest[|l|..];
    assert rest == l + pairs;
    PoliteAppend(w, l, pairs);
    LoopScheduled(w, 0, events);
    StepsKeep(w, l);
    PairScheduled(Exec(w, l).value, 0);
    ScheduledAppend(w, l, pairs);
  }

  // ----- Ping rounds

  lemma PingOneOk(w: World, k: nat)
    requires WorldOk(w) && k < |w.clients|
    ensures PingDefined(w, k) && WorldOk(PingOne(w, k)) && View(PingOne(w, k)) == View(w)
  {
    PingHidden(w, k);
  }

  lemma {:induction false} PingUpToHidden(w: World, k: nat)
    requires WorldOk(w) && k <= |w.clients|
    ensures WorldOk(PingUpTo(w, k)) && View(PingUpTo(w, k)) == View(w)
    ensures forall i :: 0 <= i < k ==> PingDefined(w, i)
  {
    hide WorldOk, View, PingUpTo, PingOne;
    if k == 0 {
      NobodyPinged(w);
    } else {
      PingUpToHidden(w, k - 1);
      PingOneOk(w, k - 1);
      PingNext(w, k - 1);
      PingOneOk(PingUpTo(w, k - 1), k - 1);
    }
  }

  /** A ping round follows no dangling lookup, keeps the server in order, and changes nothing
      that can be seen from outside. */
  lemma RoundHidden(w: World)
    requires WorldOk(w)
    ensures RoundDefined(w) && WorldOk(PingRound(w)) && View(PingRound(w)) == View(w)
  {
    PingUpToHidden(w, |w.clients|);
    EverybodyPinged(w);
  }

  // ----- Runs

  /** The two threads take turns under the lock. */
  datatype Turn = PingTurn | UpdateTurn(input: Input)

  const EMPTY_SERVER := World([], [], 0)

  ghost function Go(w: World, ts: seq<Turn>, max: int): Option<World>
    decreases |ts|
  {
    if ts == [] then Some(w)
    else
      match ts[0]
      case PingTurn => if RoundDefined(w) then Go(PingRound(w), ts[1..], max) else None
      case UpdateTurn(input) => if PassDefined(w, input, max) then Go(Pass(w, input, max), ts[1..], max) else None
  }

  ghost predicate PoliteRun(w: World, ts: seq<Turn>, max: int)
    decreases |ts|
  {
    ts == [] ||
    match ts[0]
    case PingTurn => RoundDefined(w) ==> PoliteRun(PingRound(w), ts[1..], max)
    case UpdateTurn(input) =>
      && AllPolite(w, PassSteps(w, input, max))
      && (PassDefined(w, input, max) ==> PoliteRun(Pass(w, input, max), ts[1..], max))
  }

  /** The events of a whole run: those of the steps of its update passes, in order.  Ping
      rounds have none. */
  ghost function SeenRun(w: World, ts: seq<Turn>, max: int): seq<Visible>
    decreases |ts|
  {
    if ts == [] then []
    else
      match ts[0]
      case PingTurn => if RoundDefined(w) then SeenRun(PingRound(w), ts[1..], max) else []
      case UpdateTurn(input) =>
        SeenSteps(w, PassSteps(w, input, max))
        + if PassDefined(w, input, max) then SeenRun(Pass(w, input, max), ts[1..], max) else []
  }

  /** Safety and refinement over whole runs: with polite clients the server never follows a
      dangling lookup, stays in order, and what can be seen of it from outside is exactly the
      events of its steps.  A run whose steps have none leaves players and tables alone. */
  lemma {:induction false} RunKeeps(w: World, ts: seq<Turn>, max: int)
    requires WorldOk(w) && PoliteRun(w, ts, max)
    ensures Go(w, ts, max).Some? && WorldOk(Go(w, ts, max).value)
    ensures Follows(View(w), SeenRun(w, ts, max), View(Go(w, ts, max).value))
    ensures SeenRun(w, ts, max) == [] ==> View(Go(w, ts, max).value) == View(w)
    decreases |ts|
  {
    hide WorldOk, View, PassSteps, SeenSteps;
    if ts != [] {
      match ts[0]
      case PingTurn =>
        RoundHidden(w);
        RunKeeps(PingRound(w), ts[1..], max);
      case UpdateTurn(input) =>
        PassKeeps(w, input, max);
        var w1 := Pass(w, input, max);
        RunKeeps(w1, ts[1..], max);
        FollowsAppend(View(w), SeenSteps(w, PassSteps(w, input, max)), View(w1), SeenRun(w1, ts[1..], max), View(Go(w, ts, max).value));
    }
  }

  lemma EveryRun(ts: seq<Turn>, max: int)
    requires PoliteRun(EMPTY_SERVER, ts, max)
    ensures Go(EMPTY_SERVER, ts, max).Some? && WorldOk(Go(EMPTY_SERVER, ts, max).value)
    ensures Follows(Abstract(map[], map[]), SeenRun(EMPTY_SERVER, ts, max), View(Go(EMPTY_SERVER, ts, max).value))
  {
    RunKeeps(EMPTY_SERVER, ts, max);
  }
}
