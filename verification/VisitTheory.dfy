/** The loop over the clients sees to everybody who has something to say, once, in one sweep. */
module VisitTheory {
  import opened Session
  import opened Codec
  import opened Passes
  import opened RunTheory

  /** How far from the end of the vector the client is that the step serves, closes or erases.
      While the loop goes on this is what identifies a client that is still to come: erasing
      the one at the loop's position moves all of them. */
  function FromEnd(w: World, s: Step): int {
    match s
    case DoServe(i, rq) => |w.clients| - i
    case DoClose(i) => |w.clients| - i
    case DoErase(i) => |w.clients| - i
    case _ => 0
  }

  /** One of the steps serves, closes or erases the client `d` from the end. */
  ghost predicate Visited(w: World, ss: seq<Step>, d: int)
    decreases |ss|
  {
    ss != [] && (FromEnd(w, ss[0]) == d || (StepDefined(w, ss[0]) && Visited(Apply(w, ss[0]), ss[1..], d)))
  }

  lemma VisitedThen(w: World, s: Step, ss: seq<Step>, d: int)
    requires StepDefined(w, s)
    ensures Visited(w, [s] + ss, d) <==> FromEnd(w, s) == d || Visited(Apply(w, s), ss, d)
  {
    assert ([s] + ss)[1..] == ss;
  }

  lemma {:induction false} VisitedAppend(w: World, a: seq<Step>, b: seq<Step>, d: int)
    requires Exec(w, a).Some?
    ensures Visited(w, a + b, d) <==> Visited(w, a, d) || Visited(Exec(w, a).value, b, d)
    decreases |a|
  {
    hide StepDefined, Apply, FromEnd;
    if a == [] {
      assert a + b == b;
    } else {
      assert (a + b)[1..] == a[1..] + b;
      VisitedAppend(Apply(w, a[0]), a[1..], b, d);
    }
  }

  lemma {:induction false} ServesVisit(w: World, i: nat, rqs: seq<Request>, d: int)
    requires i < |w.clients| && Exec(w, ServeSteps(w, i, rqs)).Some?
    ensures Visited(w, ServeSteps(w, i, rqs), d) <==> rqs != [] && d == |w.clients| - i
    decreases |rqs|
  {
    hide Handle, Defined;
    if rqs != [] {
      var s, w1 := DoServe(i, rqs[0]), Handle(w, i, rqs[0]);
      ServeFirst(w, i, rqs);
      HandleSameFlags(w, i, rqs[0]);
      var rest := if Accepted(w, i, rqs[0]) then ServeSteps(w1, i, rqs[1..]) else [];
      assert ServeSteps(w, i, rqs) == [s] + rest;
      VisitedThen(w, s, rest, d);
      if Accepted(w, i, rqs[0]) { ServesVisit(w1, i, rqs[1..], d); }
    }
  }

  lemma MessageVisits(w: World, i: nat, buffer: string, d: int)
    requires i < |w.clients| && Exec(w, MessageSteps(w, i, buffer)).Some?
    ensures Visited(w, MessageSteps(w, i, buffer), d) <==> IsValidFormat(buffer) && d == |w.clients| - i
  {
    if IsValidFormat(buffer) {
      RequestsWellFormed(buffer);
      ServesVisit(w, i, Requests(buffer), d);
    }
  }

  /** A client with an open connection on which something happened. */
  predicate Calls(w: World, j: nat, events: map<int, Event>) {
    j < |w.clients| && w.clients[j].sock >= 0 && EventOf(events, w.clients[j].sock) != Quiet
  }

  /** What is to be shown of the loop from `p` on, for the client `d` from the end. */
  ghost predicate Sweeps(w: World, p: nat, ss: seq<Step>, events: map<int, Event>, d: nat) {
    && (d > |w.clients| - p ==> !Visited(w, ss, d))
    && (1 <= d <= |w.clients| - p && Calls(w, |w.clients| - d, events) ==> Visited(w, ss, d))
  }

  /** Every client from `p` on for whom something happened is served, closed or erased, and
      nobody before `p` is, so nobody is seen to twice. */
  lemma {:induction false} LoopVisits(w: World, p: nat, events: map<int, Event>, d: nat)
    requires p <= |w.clients| && Exec(w, LoopSteps(w, p, events)).Some? && d >= 1
    ensures Sweeps(w, p, LoopSteps(w, p, events), events, d)
    decreases |w.clients| - p, Flag(p < |w.clients| && w.clients[p].toDisconnect),
      Flag(p < |w.clients| && w.clients[p].sock >= 0)
  {
    if p == |w.clients| {
      LoopDone(w, p, events);
    } else {
      var c := w.clients[p];
      if c.toDisconnect {
        FlaggedVisits(w, p, events, d);
      } else if c.toErase {
        ErasedVisits(w, p, events, d);
      } else if c.sock < 0 || EventOf(events, c.sock) == Quiet {
        LoopSkipped(w, p, events);
        LoopVisits(w, p + 1, events, d);
      } else if EventOf(events, c.sock).Message? {
        MessageLoopVisits(w, p, events, EventOf(events, c.sock).buffer, d);
      } else {
        assert LoopSteps(w, p, events) == CloseAndGoOn(w, p, events);
        CloseVisits(w, p, events, d);
      }
    }
  }

  /** After a step that sees to the client at `p` the others are where they were, or, when that
      client is gone, one place further to the front. */
  predicate OthersStay(w: World, w1: World, p: nat, gone: bool) {
    && |w1.clients| == |w.clients| - (if gone then 1 else 0)
    && forall k :: p < k < |w.clients| ==> w1.clients[if gone then k - 1 else k].sock == w.clients[k].sock
  }

  lemma ThenSweeps(w: World, p: nat, s: Step, w1: World, rest: seq<Step>, events: map<int, Event>, d: nat)
    requires p < |w.clients| && StepDefined(w, s) && Apply(w, s) == w1 && FromEnd(w, s) == |w.clients| - p && d >= 1
    requires OthersStay(w, w1, p, s.DoErase?) && Sweeps(w1, p, rest, events, d)
    ensures Sweeps(w, p, [s] + rest, events, d)
  {
    hide Visited, StepDefined, Apply;
    VisitedThen(w, s, rest, d);
    if 1 <= d < |w.clients| - p {
      assert Calls(w, |w.clients| - d, events) ==> Calls(w1, |w1.clients| - d, events);
    }
  }

  lemma CloseStays(w: World, p: nat)
    requires p < |w.clients|
    ensures OthersStay(w, Close(w, p), p, false) && OthersStay(w, Unflag(Close(w, p), p), p, false)
    ensures OthersStay(Close(w, p), Unflag(Close(w, p), p), p, false)
    ensures !Unflag(Close(w, p), p).clients[p].toDisconnect
    ensures Close(w, p).clients[p].sock < 0 && Close(w, p).clients[p].toDisconnect == w.clients[p].toDisconnect
  {
  }

  lemma UnflagSweeps(w: World, p: nat, rest: seq<Step>, events: map<int, Event>, d: nat)
    requires p < |w.clients| && w.clients[p].sock < 0 && d >= 1 && OthersStay(w, Unflag(w, p), p, false)
    requires Sweeps(Unflag(w, p), p, rest, events, d)
    ensures Sweeps(w, p, [DoUnflag(p)] + rest, events, d)
  {
    hide Visited;
    VisitedThen(w, DoUnflag(p), rest, d);
    if 1 <= d < |w.clients| - p {
      assert Calls(w, |w.clients| - d, events) ==> Calls(Unflag(w, p), |w.clients| - d, events);
    }
  }

  lemma {:induction false} FlaggedVisits(w: World, p: nat, events: map<int, Event>, d: nat)
    requires p < |w.clients| && w.clients[p].toDisconnect && Exec(w, LoopSteps(w, p, events)).Some? && d >= 1
    ensures Sweeps(w, p, LoopSteps(w, p, events), events, d)
    decreases |w.clients| - p, 1, Flag(w.clients[p].sock >= 0), 0
  {
    LoopFlagged(w, p, events);
    var w1 := Close(w, p);
    var w2 := Unflag(w1, p);
    var rest := LoopSteps(w2, p, events);
    FlaggedSteps(w, p, events);
    CloseStays(w, p);
    hide LoopSteps, Exec, CloseDefined, Visited, Close, Unflag, OthersStay, Sweeps;
    SameSize(w, w1, p, false);
    SameSize(w1, w2, p, false);
    LoopVisits(w2, p, events, d);
    UnflagSweeps(w1, p, rest, events, d);
    ThenSweeps(w, p, DoClose(p), w1, [DoUnflag(p)] + rest, events, d);
  }

  lemma SameSize(w: World, w1: World, p: nat, gone: bool)
    requires OthersStay(w, w1, p, gone)
    ensures |w1.clients| == |w.clients| - (if gone then 1 else 0)
  {
  }

  lemma {:induction false} ErasedVisits(w: World, p: nat, events: map<int, Event>, d: nat)
    requires p < |w.clients| && !w.clients[p].toDisconnect && w.clients[p].toErase
    requires Exec(w, LoopSteps(w, p, events)).Some? && d >= 1
    ensures Sweeps(w, p, LoopSteps(w, p, events), events, d)
    decreases |w.clients| - p, 0, Flag(w.clients[p].sock >= 0), 0
  {
    LoopErased(w, p, events);
    EraseFirst(w, p, events);
    EraseStays(w, p);
    var w1 := Erase(w, p);
    hide LoopSteps, Exec, EraseDefined, Erase, Visited, OthersStay, Sweeps;
    SameSize(w, w1, p, true);
    LoopVisits(w1, p, events, d);
    ThenSweeps(w, p, DoErase(p), w1, LoopSteps(w1, p, events), events, d);
  }

  lemma EraseStays(w: World, p: nat)
    requires p < |w.clients| && EraseDefined(w, p)
    ensures OthersStay(w, Erase(w, p), p, true)
  {
    var c := w.clients[p];
    if LeavesGame(c) {
      DestroySameFlags(w, c.room, p, FindNick(w.clients, OpponentOf(w, c)));
    }
  }

  lemma {:induction false} CloseVisits(w: World, p: nat, events: map<int, Event>, d: nat)
    requires p < |w.clients| && !w.clients[p].toDisconnect && w.clients[p].sock >= 0
    requires Exec(w, CloseAndGoOn(w, p, events)).Some? && d >= 1
    ensures Sweeps(w, p, CloseAndGoOn(w, p, events), events, d)
    decreases |w.clients| - p, 0, 1, 0
  {
    CloseUnfold(w, p, events);
    var w1 := Close(w, p);
    assert CloseAndGoOn(w, p, events) == [DoClose(p)] + LoopSteps(w1, p, events);
    CloseStays(w, p);
    hide LoopSteps, Exec, CloseDefined, Visited, CloseAndGoOn, Close, OthersStay, Sweeps;
    SameSize(w, w1, p, false);
    LoopVisits(w1, p, events, d);
    ThenSweeps(w, p, DoClose(p), w1, LoopSteps(w1, p, events), events, d);
  }

  lemma {:induction false} MessageLoopVisits(w: World, p: nat, events: map<int, Event>, buffer: string, d: nat)
    requires Served(w, p) && EventOf(events, w.clients[p].sock) == Message(buffer)
    requires Exec(w, LoopSteps(w, p, events)).Some? && d >= 1
    ensures Sweeps(w, p, LoopSteps(w, p, events), events, d)
    decreases |w.clients| - p, 0, 1, 1
  {
    hide LoopSteps, MessageSteps, CloseAndGoOn, MessageAccepted, Visited, IsValidFormat, CloseDefined, Exec,
      Sweeps, SameFlags;
    LoopMessage(w, p, events, buffer);
    MessageLoopSteps(w, p, events, buffer);
    MessageVisits(w, p, buffer, d);
    MessageRefused(w, p, buffer);
    var ss := MessageSteps(w, p, buffer);
    var w' := Exec(w, ss).value;
    SameAt(w, w', p);
    var q := if MessageAccepted(w, p, buffer) then p + 1 else p;
    var rest := AfterMessage(w', p, events, MessageAccepted(w, p, buffer));
    ExecAppend(w, ss, rest);
    if MessageAccepted(w, p, buffer) {
      LoopVisits(w', p + 1, events, d);
    } else {
      CloseVisits(w', p, events, d);
    }
    AfterMessageVisits(w, p, events, ss, rest, q, d);
  }

  lemma SameAt(w: World, w': World, p: nat)
    requires SameFlags(w, w') && p < |w.clients|
    ensures |w'.clients| == |w.clients|
    ensures w'.clients[p].toDisconnect == w.clients[p].toDisconnect && w'.clients[p].sock == w.clients[p].sock
  {
  }

  lemma SameCalls(w: World, w': World, events: map<int, Event>, d: nat)
    requires SameFlags(w, w')
    ensures |w'.clients| == |w.clients|
    ensures 1 <= d <= |w.clients| ==> (Calls(w, |w.clients| - d, events) <==> Calls(w', |w'.clients| - d, events))
  {
  }

  lemma AfterMessageVisits(w: World, p: nat, events: map<int, Event>, ss: seq<Step>, rest: seq<Step>, q: nat, d: nat)
    requires p < |w.clients| && Exec(w, ss).Some? && SameFlags(w, Exec(w, ss).value) && d >= 1
    requires Visited(w, ss, d) ==> d == |w.clients| - p
    requires q == p || (q == p + 1 && (d == |w.clients| - p ==> Visited(w, ss, d)))
    requires Sweeps(Exec(w, ss).value, q, rest, events, d)
    ensures Sweeps(w, p, ss + rest, events, d)
  {
    hide Visited, Exec;
    VisitedAppend(w, ss, rest, d);
    SameCalls(w, Exec(w, ss).value, events, d);
  }

  lemma MessageRefused(w: World, p: nat, buffer: string)
    ensures !IsValidFormat(buffer) ==> !MessageAccepted(w, p, buffer)
  {
  }

  // ----- Who is closed

  /** The socket reports a failure, a hang-up or something that is not a valid message. */
  predicate Fails(events: map<int, Event>, sock: int) {
    sock >= 0 &&
    match EventOf(events, sock)
    case Quiet => false
    case Failed => true
    case Hangup => true
    case Message(buffer) => !IsValidFormat(buffer)
  }

  /** The request is one of those in a valid message from the socket. */
  predicate Asked(events: map<int, Event>, sock: int, rq: Request) {
    && sock >= 0 && EventOf(events, sock).Message?
    && IsValidFormat(EventOf(events, sock).buffer) && rq in Requests(EventOf(events, sock).buffer)
  }

  /** Who is to be closed because of this step. */
  ghost function Kicked(w: World, s: Step): Option<nat> {
    match s
    case DoServe(i, rq) => if StepDefined(w, s) && !Accepted(w, i, rq) then Some(i) else None
    case _ => None
  }

  /** Clients are served what they ask for, and closed for a cause: when a flag says so, when
      the socket fails or sends no valid message, and right after a request that was refused. */
  ghost predicate Fair(w: World, ss: seq<Step>, events: map<int, Event>, kick: Option<nat>)
    decreases |ss|
  {
    if ss == [] then kick == None
    else
      && Due(w, ss[0], events, kick)
      && (StepDefined(w, ss[0]) ==> Fair(Apply(w, ss[0]), ss[1..], events, Kicked(w, ss[0])))
  }

  predicate Due(w: World, s: Step, events: map<int, Event>, kick: Option<nat>) {
    match s
    case DoClose(i) =>
      && i < |w.clients|
      && if kick == None then w.clients[i].toDisconnect || Fails(events, w.clients[i].sock) else kick == Some(i)
    case DoServe(i, rq) => kick == None && i < |w.clients| && Asked(events, w.clients[i].sock, rq)
    case _ => kick == None
  }

  lemma FairThen(w: World, s: Step, ss: seq<Step>, events: map<int, Event>, kick: Option<nat>)
    requires Due(w, s, events, kick) && StepDefined(w, s) && Fair(Apply(w, s), ss, events, Kicked(w, s))
    ensures Fair(w, [s] + ss, events, kick)
  {
    hide Due, StepDefined, Apply, Kicked;
    assert ([s] + ss)[1..] == ss;
  }

  lemma {:induction false} ServesFair(w: World, i: nat, rqs: seq<Request>, rest: seq<Step>, events: map<int, Event>)
    requires i < |w.clients| && Exec(w, ServeSteps(w, i, rqs)).Some?
    requires forall k :: 0 <= k < |rqs| ==> Asked(events, w.clients[i].sock, rqs[k])
    requires Fair(Exec(w, ServeSteps(w, i, rqs)).value, rest, events, if AllAccepted(w, i, rqs) then None else Some(i))
    ensures Fair(w, ServeSteps(w, i, rqs) + rest, events, None)
    decreases |rqs|
  {
    hide Handle, Defined, Asked, Fair, Accepted;
    var ss := ServeSteps(w, i, rqs);
    if rqs == [] {
      assert ss + rest == rest;
    } else {
      var s := DoServe(i, rqs[0]);
      ServeFirst(w, i, rqs);
      HandleSameFlags(w, i, rqs[0]);
      var w1 := Handle(w, i, rqs[0]);
      var more := if Accepted(w, i, rqs[0]) then ServeSteps(w1, i, rqs[1..]) else [];
      assert ss + rest == [s] + (more + rest);
      if Accepted(w, i, rqs[0]) {
        ServesFair(w1, i, rqs[1..], rest, events);
      } else {
        assert [] + rest == rest;
      }
      FairThen(w, s, more + rest, events, None);
    }
  }

  lemma MessageFair(w: World, i: nat, buffer: string, rest: seq<Step>, events: map<int, Event>)
    requires i < |w.clients| && w.clients[i].sock >= 0 && EventOf(events, w.clients[i].sock) == Message(buffer)
    requires IsValidFormat(buffer) && Exec(w, MessageSteps(w, i, buffer)).Some?
    requires Fair(Exec(w, MessageSteps(w, i, buffer)).value, rest, events, if MessageAccepted(w, i, buffer) then None else Some(i))
    ensures Fair(w, MessageSteps(w, i, buffer) + rest, events, None)
  {
    hide IsValidFormat, Requests, ServeSteps, AllAccepted, Fair, Exec;
    ServesFair(w, i, Requests(buffer), rest, events);
  }

  /** The loop over the clients closes nobody without a cause, and everybody whose request it
      refuses. */
  lemma {:induction false} LoopFair(w: World, p: nat, events: map<int, Event>)
    requires p <= |w.clients| && Exec(w, LoopSteps(w, p, events)).Some?
    ensures Fair(w, LoopSteps(w, p, events), events, None)
    decreases |w.clients| - p, Flag(p < |w.clients| && w.clients[p].toDisconnect),
      Flag(p < |w.clients| && w.clients[p].sock >= 0)
  {
    hide LoopSteps, Exec, Fair, CloseDefined, EraseDefined, CloseAndGoOn, Close, Erase, Fails;
    if p == |w.clients| {
      LoopDone(w, p, events);
      NothingFair(w, events);
    } else {
      var c := w.clients[p];
      if c.toDisconnect {
        FlaggedFair(w, p, events);
      } else if c.toErase {
        LoopErased(w, p, events);
        EraseFirst(w, p, events);
        LoopFair(Erase(w, p), p, events);
        FairThen(w, DoErase(p), LoopSteps(Erase(w, p), p, events), events, None);
      } else if c.sock < 0 || EventOf(events, c.sock) == Quiet {
        LoopSkipped(w, p, events);
        LoopFair(w, p + 1, events);
      } else if EventOf(events, c.sock).Message? {
        MessageLoopFair(w, p, events, EventOf(events, c.sock).buffer);
      } else {
        FailedSteps(w, p, events);
        FailsHere(w, p, events);
        CloseFair(w, p, events, None);
      }
    }
  }

  lemma NothingFair(w: World, events: map<int, Event>)
    ensures Fair(w, [], events, None)
  {
  }

  lemma FailsHere(w: World, p: nat, events: map<int, Event>)
    requires p < |w.clients| && w.clients[p].sock >= 0
    requires EventOf(events, w.clients[p].sock) in {Failed, Hangup}
      || (EventOf(events, w.clients[p].sock).Message? && !IsValidFormat(EventOf(events, w.clients[p].sock).buffer))
    ensures Fails(events, w.clients[p].sock)
  {
  }

  lemma FailedSteps(w: World, p: nat, events: map<int, Event>)
    requires Served(w, p) && EventOf(events, w.clients[p].sock) in {Failed, Hangup}
    ensures LoopSteps(w, p, events) == CloseAndGoOn(w, p, events)
  {
  }

  lemma {:induction false} FlaggedFair(w: World, p: nat, events: map<int, Event>)
    requires p < |w.clients| && w.clients[p].toDisconnect && Exec(w, LoopSteps(w, p, events)).Some?
    ensures Fair(w, LoopSteps(w, p, events), events, None)
    decreases |w.clients| - p, 1, Flag(w.clients[p].sock >= 0), 0
  {
    hide LoopSteps, Exec, Fair, CloseDefined, Fails;
    LoopFlagged(w, p, events);
    FlaggedSteps(w, p, events);
    var w1 := Close(w, p);
    var w2 := Unflag(w1, p);
    LoopFair(w2, p, events);
    FairThen(w1, DoUnflag(p), LoopSteps(w2, p, events), events, None);
    FairThen(w, DoClose(p), [DoUnflag(p)] + LoopSteps(w2, p, events), events, None);
  }

  lemma {:induction false} CloseFair(w: World, p: nat, events: map<int, Event>, kick: Option<nat>)
    requires p < |w.clients| && !w.clients[p].toDisconnect && w.clients[p].sock >= 0
    requires Exec(w, CloseAndGoOn(w, p, events)).Some?
    requires kick == Some(p) || (kick == None && Fails(events, w.clients[p].sock))
    ensures Fair(w, CloseAndGoOn(w, p, events), events, kick)
    decreases |w.clients| - p, 0, 1, 0
  {
    CloseUnfold(w, p, events);
    var w1 := Close(w, p);
    assert CloseAndGoOn(w, p, events) == [DoClose(p)] + LoopSteps(w1, p, events);
    hide LoopSteps, Exec, Fair, CloseDefined, CloseAndGoOn, Fails;
    LoopFair(w1, p, events);
    FairThen(w, DoClose(p), LoopSteps(w1, p, events), events, kick);
  }

  lemma {:induction false} MessageLoopFair(w: World, p: nat, events: map<int, Event>, buffer: string)
    requires Served(w, p) && EventOf(events, w.clients[p].sock) == Message(buffer)
    requires Exec(w, LoopSteps(w, p, events)).Some?
    ensures Fair(w, LoopSteps(w, p, events), events, None)
    decreases |w.clients| - p, 0, 1, 1
  {
    hide LoopSteps, CloseAndGoOn, MessageAccepted, IsValidFormat, CloseDefined, Exec, SameFlags, ServeSteps,
      Fair, Fails;
    LoopMessage(w, p, events, buffer);
    MessageLoopSteps(w, p, events, buffer);
    MessageRefused(w, p, buffer);
    var ss := MessageSteps(w, p, buffer);
    var w' := Exec(w, ss).value;
    SameAt(w, w', p);
    var rest := AfterMessage(w', p, events, MessageAccepted(w, p, buffer));
    ExecAppend(w, ss, rest);
    if !IsValidFormat(buffer) {
      NothingDone(w);
      assert ss + rest == rest;
      FailsHere(w, p, events);
      CloseFair(w, p, events, None);
    } else {
      if MessageAccepted(w, p, buffer) { LoopFair(w', p + 1, events); } else { CloseFair(w', p, events, Some(p)); }
      MessageFair(w, p, buffer, rest, events);
    }
  }

  lemma NothingDone(w: World)
    ensures Exec(w, []) == Some(w)
  {
  }
}
