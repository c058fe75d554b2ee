/** Who plays whom: the ready clients are paired in the order of the vector. */
module PairTheory {
  import opened Rules
  import opened Session
  import opened Codec
  import opened Passes
  import opened RunTheory

  /** The positions of the ready clients from `p` on, all of them, in order. */
  predicate AreReady(cs: seq<ClientRec>, p: nat, rs: seq<nat>) {
    && (forall k :: 0 <= k < |rs| ==> p <= rs[k] < |cs| && cs[rs[k]].state == Ready)
    && (forall k, l :: 0 <= k < l < |rs| ==> rs[k] < rs[l])
    && (forall i :: p <= i < |cs| && cs[i].state == Ready ==> i in rs)
  }

  function ReadyFrom(cs: seq<ClientRec>, p: nat): (rs: seq<nat>)
    requires p <= |cs|
    ensures AreReady(cs, p, rs)
    decreases |cs| - p
  {
    if p == |cs| then [] else if cs[p].state == Ready then [p] + ReadyFrom(cs, p + 1) else ReadyFrom(cs, p + 1)
  }

  predicate Increasing(rs: seq<nat>, n: nat) {
    && (forall k :: 0 <= k < |rs| ==> rs[k] < n)
    && (forall k, l :: 0 <= k < l < |rs| ==> rs[k] < rs[l])
  }

  lemma ReadyIncreasing(cs: seq<ClientRec>, p: nat)
    requires p <= |cs|
    ensures Increasing(ReadyFrom(cs, p), |cs|)
  {
    hide ReadyFrom;
  }

  /** The world after the first two, the next two, and so on have started games. */
  function AllPaired(w: World, rs: seq<nat>): World
    requires Increasing(rs, |w.clients|)
    decreases |rs|
  {
    if |rs| < 2 then w else AllPaired(Started(w, rs[0], rs[1]), rs[2..])
  }

  lemma {:induction false} NextReadyFrom(cs: seq<ClientRec>, p: nat)
    requires p <= |cs|
    ensures var i := NextReady(cs, p);
      ReadyFrom(cs, p) == if i == |cs| then [] else [i] + ReadyFrom(cs, i + 1)
    decreases |cs| - p
  {
    if p < |cs| && cs[p].state != Ready {
      NextReadyFrom(cs, p + 1);
    }
  }

  lemma {:induction false} SameReady(cs: seq<ClientRec>, cs': seq<ClientRec>, p: nat)
    requires p <= |cs| == |cs'| && forall k :: p <= k < |cs| ==> cs'[k] == cs[k]
    ensures ReadyFrom(cs', p) == ReadyFrom(cs, p)
    decreases |cs| - p
  {
    if p < |cs| {
      SameReady(cs, cs', p + 1);
    }
  }

  lemma PairedFirst(w: World, i: nat, j: nat, rest: seq<nat>)
    requires Increasing([i] + ([j] + rest), |w.clients|) && i < |w.clients| && j < |w.clients|
    ensures |Started(w, i, j).clients| == |w.clients| && Increasing(rest, |w.clients|)
    ensures AllPaired(w, [i] + ([j] + rest)) == AllPaired(Started(w, i, j), rest)
  {
    var rs := [i] + ([j] + rest);
    assert rs[2..] == rest;
    assert forall k :: 0 <= k < |rest| ==> rest[k] == rs[k + 2];
  }

  lemma {:induction false} PairStepsPair(w: World, p: nat)
    requires p <= |w.clients|
    ensures Exec(w, PairSteps(w, p)) == Some(AllPaired(w, ReadyFrom(w.clients, p)))
    decreases |w.clients| - p
  {
    var i := NextReady(w.clients, p);
    NextReadyFrom(w.clients, p);
    if i < |w.clients| { NextReadyFrom(w.clients, i + 1); }
    if i == |w.clients| || NextReady(w.clients, i + 1) == |w.clients| {
      hide NextReady, StartGame, ReadyFrom;
      PairStepsNone(w, p);
    } else {
      PairStepsPairMore(w, p, i, NextReady(w.clients, i + 1));
    }
  }

  lemma {:induction false} PairStepsPairMore(w: World, p: nat, i: nat, j: nat)
    requires p <= |w.clients| && i == NextReady(w.clients, p) < |w.clients| && j == NextReady(w.clients, i + 1) < |w.clients|
    ensures Exec(w, PairSteps(w, p)) == Some(AllPaired(w, ReadyFrom(w.clients, p)))
    decreases |w.clients| - p, 0
  {
    hide PairSteps, NextReady, StartGame, ReadyFrom, AllPaired, Exec, Started, Increasing;
    ReadyFromPair(w.clients, p, i, j);
    StartedAfter(w, i, j);
    StartResult(w, i, j);
    PairStepsRun(w, p, i, j);
    PairedFirst(w, i, j, ReadyFrom(w.clients, j + 1));
    PairStepsPair(Started(w, i, j), j + 1);
  }

  lemma ReadyFromPair(cs: seq<ClientRec>, p: nat, i: nat, j: nat)
    requires p <= |cs| && i == NextReady(cs, p) < |cs| && j == NextReady(cs, i + 1) < |cs|
    ensures ReadyFrom(cs, p) == [i] + ([j] + ReadyFrom(cs, j + 1)) && Increasing(ReadyFrom(cs, p), |cs|)
  {
    hide NextReady, ReadyFrom, AreReady, Increasing;
    NextReadyFrom(cs, p);
    NextReadyFrom(cs, i + 1);
    ReadyIncreasing(cs, p);
  }

  lemma StartedAfter(w: World, i: nat, j: nat)
    requires i < j < |w.clients|
    ensures |Started(w, i, j).clients| == |w.clients|
    ensures ReadyFrom(Started(w, i, j).clients, j + 1) == ReadyFrom(w.clients, j + 1)
  {
    var cs := Started(w, i, j).clients;
    assert forall k :: j + 1 <= k < |w.clients| ==> cs[k] == w.clients[k];
    hide Started, ReadyFrom, AreReady;
    SameReady(w.clients, cs, j + 1);
  }

  /** The k-th pair of ready clients: the first begins, the second stands by, in the k-th of
      the new rooms. */
  predicate PlayTogether(w: World, w': World, i: nat, j: nat, k: nat)
    requires i < |w.clients| == |w'.clients| && j < |w.clients|
  {
    && w'.clients[i] == InGame(w.clients[i], PlayingOnTurn, w.roomsTotal + 1 + k)
    && w'.clients[j] == InGame(w.clients[j], PlayingOnStand, w.roomsTotal + 1 + k)
  }

  /** The room opened for the k-th pair. */
  function NewRoom(cs: seq<ClientRec>, total: int, rs: seq<nat>, k: nat): RoomRec
    requires 2 * k + 1 < |rs| && rs[2 * k] < |cs| && rs[2 * k + 1] < |cs|
  {
    RoomRec(total + 1 + k, NewGame(cs[rs[2 * k]].nick, cs[rs[2 * k + 1]].nick))
  }

  /** The rooms that are opened. */
  function NewRooms(cs: seq<ClientRec>, total: int, rs: seq<nat>): seq<RoomRec>
    requires Increasing(rs, |cs|)
  {
    seq(|rs| / 2, k requires 0 <= k < |rs| / 2 => NewRoom(cs, total, rs, k))
  }

  lemma NewRoomsFirst(cs: seq<ClientRec>, cs': seq<ClientRec>, total: int, rs: seq<nat>)
    requires Increasing(rs, |cs|) && |rs| >= 2 && |cs'| == |cs|
    requires forall i :: 0 <= i < |cs| ==> cs'[i].nick == cs[i].nick
    ensures Increasing(rs[2..], |cs'|)
    ensures NewRooms(cs, total, rs) ==
      [RoomRec(total + 1, NewGame(cs[rs[0]].nick, cs[rs[1]].nick))] + NewRooms(cs', total + 1, rs[2..])
  {
    hide NewGame;
    var all, rest := NewRooms(cs, total, rs), NewRooms(cs', total + 1, rs[2..]);
    forall k | 0 <= k < |rest| ensures rest[k] == all[k + 1] {
      assert rs[2..][2 * k] == rs[2 * (k + 1)] && rs[2..][2 * k + 1] == rs[2 * (k + 1) + 1];
    }
  }

  lemma {:induction false} AllPairedRooms(w: World, rs: seq<nat>)
    requires Increasing(rs, |w.clients|)
    ensures var w' := AllPaired(w, rs);
      && |w'.clients| == |w.clients|
      && w'.rooms == w.rooms + NewRooms(w.clients, w.roomsTotal, rs)
      && w'.roomsTotal == w.roomsTotal + |rs| / 2
    decreases |rs|
  {
    hide NewRooms, AllPaired, Started, NewGame;
    if |rs| < 2 {
      PairedNone(w, rs);
    } else {
      var w1 := Started(w, rs[0], rs[1]);
      StartedRooms(w, rs[0], rs[1]);
      AllPairedUnfold(w, rs);
      NewRoomsFirst(w.clients, w1.clients, w.roomsTotal, rs);
      AllPairedRooms(w1, rs[2..]);
      Regroup(w.rooms, w1.rooms[|w.rooms|..], NewRooms(w1.clients, w1.roomsTotal, rs[2..]));
    }
  }

  lemma Regroup<T>(a: seq<T>, b: seq<T>, c: seq<T>)
    ensures (a + b) + c == a + (b + c)
  {
  }

  lemma PairedNone(w: World, rs: seq<nat>)
    requires Increasing(rs, |w.clients|) && |rs| < 2
    ensures AllPaired(w, rs) == w && NewRooms(w.clients, w.roomsTotal, rs) == []
  {
  }

  lemma StartedRooms(w: World, i: nat, j: nat)
    requires i < |w.clients| && j < |w.clients|
    ensures var w1 := Started(w, i, j);
      && w1.rooms == w.rooms + [RoomRec(w.roomsTotal + 1, NewGame(w.clients[i].nick, w.clients[j].nick))]
      && w1.roomsTotal == w.roomsTotal + 1 && |w1.clients| == |w.clients|
      && forall k :: 0 <= k < |w.clients| ==> w1.clients[k].nick == w.clients[k].nick
  {
    hide NewGame;
  }

  lemma AllPairedUnfold(w: World, rs: seq<nat>)
    requires Increasing(rs, |w.clients|) && |rs| >= 2 && |Started(w, rs[0], rs[1]).clients| == |w.clients|
    ensures Increasing(rs[2..], |w.clients|) && AllPaired(w, rs) == AllPaired(Started(w, rs[0], rs[1]), rs[2..])
  {
    hide Started, NewGame;
  }

  lemma Tail(rs: seq<nat>, n: nat)
    requires Increasing(rs, n) && |rs| >= 2
    ensures Increasing(rs[2..], n) && rs[0] < rs[1] < n
    ensures forall l :: 0 <= l < |rs[2..]| ==> rs[2..][l] == rs[l + 2] && rs[1] < rs[l + 2]
  {
  }

  /** `i` is not among the clients that are paired. */
  predicate LeftOut(rs: seq<nat>, i: nat) {
    forall l :: 0 <= l < 2 * (|rs| / 2) ==> i != rs[l]
  }

  lemma {:induction false} LeftOutStays(w: World, rs: seq<nat>, i: nat)
    requires Increasing(rs, |w.clients|) && i < |w.clients| == |AllPaired(w, rs).clients| && LeftOut(rs, i)
    ensures AllPaired(w, rs).clients[i] == w.clients[i]
    decreases |rs|
  {
    hide NewGame;
    if |rs| >= 2 {
      Tail(rs, |w.clients|);
      assert i != rs[0] && i != rs[1];
      assert LeftOut(rs[2..], i);
      LeftOutStays(Started(w, rs[0], rs[1]), rs[2..], i);
    }
  }

  lemma {:induction false} PairPlays(w: World, rs: seq<nat>, k: nat)
    requires Increasing(rs, |w.clients|) && k < |rs| / 2 && |AllPaired(w, rs).clients| == |w.clients|
    ensures PlayTogether(w, AllPaired(w, rs), rs[2 * k], rs[2 * k + 1], k)
    decreases k
  {
    hide NewGame, InGame;
    Tail(rs, |w.clients|);
    var w1, tail := Started(w, rs[0], rs[1]), rs[2..];
    if k == 0 {
      LeftOutStays(w1, tail, rs[0]);
      LeftOutStays(w1, tail, rs[1]);
    } else {
      PairPlays(w1, tail, k - 1);
      assert tail[2 * (k - 1)] == rs[2 * k] && tail[2 * (k - 1) + 1] == rs[2 * k + 1];
    }
  }

  /** Pairing the ready clients: consecutive ones, in order, each pair in a fresh room of its
      own, half as many rooms as ready clients.  Everybody else is left alone; at most one of
      the ready clients, the last, is among them. */
  lemma PairingExactly(w: World)
    ensures Exec(w, PairSteps(w, 0)).Some?
    ensures var rs := ReadyFrom(w.clients, 0); var w' := Exec(w, PairSteps(w, 0)).value;
      && |w'.clients| == |w.clients|
      && w'.rooms == w.rooms + NewRooms(w.clients, w.roomsTotal, rs)
      && w'.roomsTotal == w.roomsTotal + |rs| / 2
      && (forall k :: 0 <= k < |rs| / 2 ==> PlayTogether(w, w', rs[2 * k], rs[2 * k + 1], k))
      && (forall i :: 0 <= i < |w.clients| && LeftOut(rs, i) ==> w'.clients[i] == w.clients[i])
  {
    var rs := ReadyFrom(w.clients, 0);
    hide AllPaired, NewRooms, PlayTogether, LeftOut, PairSteps, Exec;
    PairStepsPair(w, 0);
    AllPairedRooms(w, rs);
    var w' := AllPaired(w, rs);
    forall k | 0 <= k < |rs| / 2 ensures PlayTogether(w, w', rs[2 * k], rs[2 * k + 1], k) {
      PairPlays(w, rs, k);
    }
    forall i | 0 <= i < |w.clients| && LeftOut(rs, i) ensures w'.clients[i] == w.clients[i] {
      LeftOutStays(w, rs, i);
    }
  }
}
