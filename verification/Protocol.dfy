/** The protocol seen from outside: which named players there are, what each is doing, and
    who sits at which table.  Connections, pings and instances do not appear. */
module Protocol {
  import opened Session

  datatype Player = Player(mode: State, room: int)

  datatype Table = Table(onTurn: string, onStand: string)

  datatype Abstract = Abstract(players: map<string, Player>, tables: map<int, Table>)

  const IN_LOBBY := Player(Waiting, 0)

  /** Every player in a game sits at a table that knows it, in the role it plays there, and
      every table has two different players, who sit there; everybody else is in the lobby. */
  predicate Consistent(a: Abstract) {
    && (forall n :: n in a.players ==> PlayerFits(a, n))
    && (forall r :: r in a.tables ==> TableFits(a, r))
  }

  predicate PlayerFits(a: Abstract, n: string)
    requires n in a.players
  {
    var p := a.players[n];
    && n != ""
    && p.mode in {Waiting, Ready, PlayingOnTurn, PlayingOnStand}
    && (p.room != 0 <==> Playing(p.mode))
    && (p.room != 0 ==> p.room in a.tables && SitsAt(a.tables[p.room], n, p.mode))
  }

  predicate SitsAt(t: Table, n: string, mode: State) {
    if mode == PlayingOnTurn then t.onTurn == n else t.onStand == n
  }

  predicate TableFits(a: Abstract, r: int)
    requires r in a.tables
  {
    var t := a.tables[r];
    && r != 0
    && t.onTurn != t.onStand
    && t.onTurn in a.players && a.players[t.onTurn] == Player(PlayingOnTurn, r)
    && t.onStand in a.players && a.players[t.onStand] == Player(PlayingOnStand, r)
  }

  // ----- What may happen

  predicate Enters(a: Abstract, a': Abstract, n: string) {
    n != "" && n !in a.players && a' == a.(players := a.players[n := IN_LOBBY])
  }

  /** A player in the lobby becomes ready, or goes back to waiting. */
  predicate Decides(a: Abstract, a': Abstract, n: string, mode: State) {
    && n in a.players && a.players[n].room == 0 && mode in {Waiting, Ready}
    && a' == a.(players := a.players[n := Player(mode, 0)])
  }

  predicate Starts(a: Abstract, a': Abstract, n: string, m: string, r: int) {
    && n in a.players && m in a.players && n != m && r != 0 && r !in a.tables
    && a.players[n].mode == Ready && a.players[m].mode == Ready
    && a' == Abstract(a.players[n := Player(PlayingOnTurn, r)][m := Player(PlayingOnStand, r)],
                      a.tables[r := Table(n, m)])
  }

  predicate Turns(a: Abstract, a': Abstract, r: int) {
    && r in a.tables
    && var t := a.tables[r];
       a' == Abstract(a.players[t.onStand := Player(PlayingOnTurn, r)][t.onTurn := Player(PlayingOnStand, r)],
                      a.tables[r := Table(t.onStand, t.onTurn)])
  }

  predicate Ends(a: Abstract, a': Abstract, r: int) {
    && r in a.tables
    && var t := a.tables[r];
       a' == Abstract(a.players[t.onTurn := IN_LOBBY][t.onStand := IN_LOBBY], a.tables - {r})
  }

  predicate Leaves(a: Abstract, a': Abstract, n: string) {
    n in a.players && a.players[n].room == 0 && a' == a.(players := a.players - {n})
  }

  /** What can be seen from outside. */
  datatype Visible =
    | Arrival(nick: string)
    | Choice(nick: string, mode: State)
    | Opening(nick1: string, nick2: string, table: int)
    | Passing(table: int)
    | Ending(table: int)
    | Departure(nick: string)

  /** The event may happen in `a`, and `a'` is what it makes of `a`. */
  predicate Happens(a: Abstract, e: Visible, a': Abstract) {
    match e
    case Arrival(n) => Enters(a, a', n)
    case Choice(n, mode) => Decides(a, a', n, mode)
    case Opening(n, m, r) => Starts(a, a', n, m, r)
    case Passing(r) => Turns(a, a', r)
    case Ending(r) => Ends(a, a', r)
    case Departure(n) => Leaves(a, a', n)
  }

  /** These events, one after the other and no others, lead from `a` to `a'`. */
  ghost predicate Follows(a: Abstract, es: seq<Visible>, a': Abstract)
    decreases |es|
  {
    if es == [] then a' == a
    else exists mid :: Happens(a, es[0], mid) && Follows(mid, es[1..], a')
  }

  lemma EnterConsistent(a: Abstract, a': Abstract, n: string)
    requires Consistent(a) && Enters(a, a', n)
    ensures Consistent(a')
  {
    assert forall m :: m in a'.players && m != n ==> PlayerFits(a, m);
    assert forall r :: r in a'.tables ==> TableFits(a, r);
  }

  lemma DecideConsistent(a: Abstract, a': Abstract, n: string, mode: State)
    requires Consistent(a) && Decides(a, a', n, mode)
    ensures Consistent(a')
  {
    assert PlayerFits(a, n);
    assert forall m :: m in a'.players && m != n ==> PlayerFits(a, m);
    assert forall r :: r in a'.tables ==> TableFits(a, r);
  }

  lemma LeaveConsistent(a: Abstract, a': Abstract, n: string)
    requires Consistent(a) && Leaves(a, a', n)
    ensures Consistent(a')
  {
    assert PlayerFits(a, n);
    assert forall m :: m in a'.players ==> PlayerFits(a, m);
    assert forall r :: r in a'.tables ==> TableFits(a, r);
  }

  lemma StartConsistent(a: Abstract, a': Abstract, n: string, m: string, r: int)
    requires Consistent(a) && Starts(a, a', n, m, r)
    ensures Consistent(a')
  {
    assert PlayerFits(a, n) && PlayerFits(a, m);
    forall k | k in a'.players && k != n && k != m ensures PlayerFits(a', k) {
      assert PlayerFits(a, k);
    }
    forall q | q in a'.tables && q != r ensures TableFits(a', q) {
      assert TableFits(a, q);
    }
  }

  lemma TurnConsistent(a: Abstract, a': Abstract, r: int)
    requires Consistent(a) && Turns(a, a', r)
    ensures Consistent(a')
  {
    assert TableFits(a, r);
    var t := a.tables[r];
    forall k | k in a'.players && k != t.onTurn && k != t.onStand ensures PlayerFits(a', k) {
      assert PlayerFits(a, k);
    }
    forall q | q in a'.tables && q != r ensures TableFits(a', q) {
      assert TableFits(a, q);
    }
  }

  lemma EndConsistent(a: Abstract, a': Abstract, r: int)
    requires Consistent(a) && Ends(a, a', r)
    ensures Consistent(a')
  {
    assert TableFits(a, r);
    var t := a.tables[r];
    forall k | k in a'.players && k != t.onTurn && k != t.onStand ensures PlayerFits(a', k) {
      assert PlayerFits(a, k);
    }
    assert PlayerFits(a, t.onTurn) && PlayerFits(a, t.onStand);
    forall q | q in a'.tables ensures TableFits(a', q) {
      assert TableFits(a, q);
    }
  }

  /** Events keep the protocol consistent. */
  lemma EventConsistent(a: Abstract, e: Visible, a': Abstract)
    requires Consistent(a) && Happens(a, e, a')
    ensures Consistent(a')
  {
    match e
    case Arrival(n) => EnterConsistent(a, a', n);
    case Choice(n, mode) => DecideConsistent(a, a', n, mode);
    case Opening(n, m, r) => StartConsistent(a, a', n, m, r);
    case Passing(r) => TurnConsistent(a, a', r);
    case Ending(r) => EndConsistent(a, a', r);
    case Departure(n) => LeaveConsistent(a, a', n);
  }

  /** A list of events leads to one place only. */
  lemma {:induction false} FollowsUnique(a: Abstract, es: seq<Visible>, b: Abstract, c: Abstract)
    requires Follows(a, es, b) && Follows(a, es, c)
    ensures b == c
    decreases |es|
  {
    if es != [] {
      var m :| Happens(a, es[0], m) && Follows(m, es[1..], b);
      FollowsUnique(m, es[1..], b, c);
    }
  }

  lemma FollowsOne(a: Abstract, e: Visible, a': Abstract)
    requires Happens(a, e, a')
    ensures Follows(a, [e], a')
  {
    assert [e][1..] == [];
    assert Follows(a', [e][1..], a');
  }

  lemma FollowsTwo(a: Abstract, e: Visible, b: Abstract, f: Visible, c: Abstract)
    requires Happens(a, e, b) && Happens(b, f, c)
    ensures Follows(a, [e, f], c)
  {
    FollowsOne(b, f, c);
    assert [e, f][1..] == [f];
  }

  lemma {:induction false} FollowsAppend(a: Abstract, es: seq<Visible>, b: Abstract, fs: seq<Visible>, c: Abstract)
    requires Follows(a, es, b) && Follows(b, fs, c)
    ensures Follows(a, es + fs, c)
    decreases |es|
  {
    if es == [] {
      assert es + fs == fs;
    } else {
      var mid :| Happens(a, es[0], mid) && Follows(mid, es[1..], b);
      FollowsAppend(mid, es[1..], b, fs, c);
      assert (es + fs)[1..] == es[1..] + fs;
    }
  }

  // ----- Counting

  function Openings(es: seq<Visible>): nat {
    if es == [] then 0 else (if es[0].Opening? then 1 else 0) + Openings(es[1..])
  }

  function Endings(es: seq<Visible>): nat {
    if es == [] then 0 else (if es[0].Ending? then 1 else 0) + Endings(es[1..])
  }

  lemma CountOne(e: Visible)
    ensures Openings([e]) == (if e.Opening? then 1 else 0) && Endings([e]) == (if e.Ending? then 1 else 0)
  {
    assert [e][1..] == [];
  }

  lemma CountTwo(e: Visible, f: Visible)
    ensures Openings([e, f]) == (if e.Opening? then 1 else 0) + (if f.Opening? then 1 else 0)
    ensures Endings([e, f]) == (if e.Ending? then 1 else 0) + (if f.Ending? then 1 else 0)
  {
    CountOne(f);
    assert [e, f][1..] == [f];
  }

  lemma {:induction false} CountsAppend(es: seq<Visible>, fs: seq<Visible>)
    ensures Openings(es + fs) == Openings(es) + Openings(fs) && Endings(es + fs) == Endings(es) + Endings(fs)
    decreases |es|
  {
    if es == [] {
      assert es + fs == fs;
    } else {
      CountsAppend(es[1..], fs);
      assert (es + fs)[1..] == es[1..] + fs;
    }
  }

  /** Exactly two players sit at a table. */
  lemma TwoAtEachTable(a: Abstract, r: int)
    requires Consistent(a) && r in a.tables
    ensures (set n | n in a.players && a.players[n].room == r) == {a.tables[r].onTurn, a.tables[r].onStand}
    ensures a.tables[r].onTurn != a.tables[r].onStand
  {
    assert TableFits(a, r);
    forall n | n in a.players && a.players[n].room == r
      ensures n == a.tables[r].onTurn || n == a.tables[r].onStand
    {
      assert PlayerFits(a, n);
    }
  }
}
