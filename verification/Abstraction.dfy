/** From the server's clients and rooms to the protocol seen from outside. */
module Abstraction {
  import opened Rules
  import opened RulesTheory
  import opened Session
  import opened Protocol

  predicate NicksDistinct(cs: seq<ClientRec>) {
    forall i, j :: 0 <= i < j < |cs| && cs[i].nick != "" ==> cs[i].nick != cs[j].nick
  }

  /** Room ids grow along the list of rooms and were all given out. */
  predicate RoomIdsOk(w: World) {
    && w.roomsTotal >= 0
    && (forall i :: 0 <= i < |w.rooms| ==> 1 <= w.rooms[i].id <= w.roomsTotal)
    && (forall i, j :: 0 <= i < j < |w.rooms| ==> w.rooms[i].id < w.rooms[j].id)
  }

  function PlayerOf(c: ClientRec): Player {
    Player(Logical(c), c.room)
  }

  function Entry(c: ClientRec): map<string, Player> {
    if c.nick == "" then map[] else map[c.nick := PlayerOf(c)]
  }

  /** The named clients. */
  function Players(cs: seq<ClientRec>): map<string, Player> {
    if cs == [] then map[] else Players(cs[..|cs| - 1]) + Entry(cs[|cs| - 1])
  }

  function TableOf(g: Game): Table {
    Table(g.onTurn, g.onStand)
  }

  function Tables(rs: seq<RoomRec>): map<int, Table> {
    if rs == [] then map[] else Tables(rs[..|rs| - 1]) + map[rs[|rs| - 1].id := TableOf(rs[|rs| - 1].game)]
  }

  function View(w: World): Abstract {
    Abstract(Players(w.clients), Tables(w.rooms))
  }

  // ----- What it means to be the view of some clients, or of some rooms

  predicate Has(m: map<string, Player>, c: ClientRec) {
    c.nick in m && m[c.nick] == PlayerOf(c)
  }

  predicate Owned(cs: seq<ClientRec>, n: string) {
    n != "" && exists i :: 0 <= i < |cs| && cs[i].nick == n
  }

  predicate Shows(cs: seq<ClientRec>, m: map<string, Player>) {
    && (forall i :: 0 <= i < |cs| && cs[i].nick != "" ==> Has(m, cs[i]))
    && (forall n :: n in m ==> Owned(cs, n))
  }

  lemma {:induction false} PlayersShow(cs: seq<ClientRec>)
    requires NicksDistinct(cs)
    ensures Shows(cs, Players(cs))
  {
    if cs != [] {
      var front, last := cs[..|cs| - 1], cs[|cs| - 1];
      PlayersShow(front);
      forall i | 0 <= i < |cs| && cs[i].nick != "" ensures Has(Players(cs), cs[i]) {
        if i < |front| { assert Has(Players(front), front[i]); }
      }
      forall n | n in Players(cs) ensures Owned(cs, n) {
        if n in Players(front) {
          assert Owned(front, n);
          var i :| 0 <= i < |front| && front[i].nick == n;
          assert cs[i].nick == n;
        } else {
          assert cs[|front|].nick == n;
        }
      }
    }
  }

  lemma ShowsUnique(cs: seq<ClientRec>, m: map<string, Player>, m': map<string, Player>)
    requires Shows(cs, m) && Shows(cs, m')
    ensures m == m'
  {
    forall n | n in m || n in m' ensures n in m && n in m' && m[n] == m'[n] {
      assert Owned(cs, n);
      var i :| 0 <= i < |cs| && cs[i].nick == n;
      assert Has(m, cs[i]) && Has(m', cs[i]);
    }
  }

  lemma ShownPlayers(cs: seq<ClientRec>, m: map<string, Player>)
    requires NicksDistinct(cs) && Shows(cs, m)
    ensures Players(cs) == m
  {
    PlayersShow(cs);
    ShowsUnique(cs, m, Players(cs));
  }

  predicate HasTable(m: map<int, Table>, r: RoomRec) {
    r.id in m && m[r.id] == TableOf(r.game)
  }

  predicate StoredId(rs: seq<RoomRec>, id: int) {
    exists i :: 0 <= i < |rs| && rs[i].id == id
  }

  predicate ShowsTables(rs: seq<RoomRec>, m: map<int, Table>) {
    && (forall i :: 0 <= i < |rs| ==> HasTable(m, rs[i]))
    && (forall id :: id in m ==> StoredId(rs, id))
  }

  predicate IdsDistinct(rs: seq<RoomRec>) {
    forall i, j :: 0 <= i < j < |rs| ==> rs[i].id != rs[j].id
  }

  lemma {:induction false} TablesShowIds(rs: seq<RoomRec>)
    requires IdsDistinct(rs)
    ensures ShowsTables(rs, Tables(rs))
  {
    if rs != [] {
      var front, last := rs[..|rs| - 1], rs[|rs| - 1];
      TablesShowIds(front);
      forall i | 0 <= i < |rs| ensures HasTable(Tables(rs), rs[i]) {
        if i < |front| { assert HasTable(Tables(front), front[i]); }
      }
      forall id | id in Tables(rs) ensures StoredId(rs, id) {
        if id in Tables(front) {
          assert StoredId(front, id);
          var i :| 0 <= i < |front| && front[i].id == id;
          assert rs[i].id == id;
        } else {
          assert rs[|front|].id == id;
        }
      }
    }
  }

  lemma TablesShow(w: World)
    requires RoomIdsOk(w)
    ensures ShowsTables(w.rooms, Tables(w.rooms))
  {
    TablesShowIds(w.rooms);
  }

  lemma ShowsTablesUnique(rs: seq<RoomRec>, m: map<int, Table>, m': map<int, Table>)
    requires ShowsTables(rs, m) && ShowsTables(rs, m')
    ensures m == m'
  {
    forall id | id in m || id in m' ensures id in m && id in m' && m[id] == m'[id] {
      assert StoredId(rs, id);
      var i :| 0 <= i < |rs| && rs[i].id == id;
      assert HasTable(m, rs[i]) && HasTable(m', rs[i]);
    }
  }

  lemma ShownTables(w: World, m: map<int, Table>)
    requires RoomIdsOk(w) && ShowsTables(w.rooms, m)
    ensures Tables(w.rooms) == m
  {
    TablesShow(w);
    ShowsTablesUnique(w.rooms, m, Tables(w.rooms));
  }

  // ----- Looking up

  lemma FindOwn(cs: seq<ClientRec>, i: nat)
    requires NicksDistinct(cs) && i < |cs| && cs[i].nick != ""
    ensures FindNick(cs, cs[i].nick) == i
    ensures cs[i].nick in Players(cs) && Players(cs)[cs[i].nick] == PlayerOf(cs[i])
  {
    PlayersShow(cs);
    assert Has(Players(cs), cs[i]);
    assert FindNick(cs, cs[i].nick) <= i;
  }

  lemma FindPlayer(cs: seq<ClientRec>, n: string)
    requires NicksDistinct(cs) && n != ""
    ensures n in Players(cs) <==> FindNick(cs, n) < |cs|
    ensures n in Players(cs) ==> Players(cs)[n] == PlayerOf(cs[FindNick(cs, n)])
  {
    PlayersShow(cs);
    if n in Players(cs) {
      assert Owned(cs, n);
    }
    if FindNick(cs, n) < |cs| {
      FindOwn(cs, FindNick(cs, n));
    }
  }

  lemma NoNamelessPlayer(cs: seq<ClientRec>)
    requires NicksDistinct(cs)
    ensures "" !in Players(cs)
  {
    PlayersShow(cs);
    assert !Owned(cs, "");
  }

  /** The nick lookup and the lookup by nick and address never point at different clients. */
  lemma LookupsAgree(cs: seq<ClientRec>, n: string, ip: string)
    requires NicksDistinct(cs) && n != "" && FindNickAndIp(cs, n, ip) < |cs|
    ensures FindNick(cs, n) == FindNickAndIp(cs, n, ip)
  {
    FindOwn(cs, FindNickAndIp(cs, n, ip));
  }

  /** Room ids are found exactly where they are. */
  lemma RoomLookup(w: World, r: nat)
    requires RoomIdsOk(w) && r < |w.rooms|
    ensures FindRoom(w.rooms, w.rooms[r].id) == r
    ensures w.rooms[r].id in Tables(w.rooms) && Tables(w.rooms)[w.rooms[r].id] == TableOf(w.rooms[r].game)
  {
    TablesShow(w);
    assert HasTable(Tables(w.rooms), w.rooms[r]);
    assert FindRoom(w.rooms, w.rooms[r].id) <= r;
  }

  lemma FindTable(w: World, id: int)
    requires RoomIdsOk(w)
    ensures id in Tables(w.rooms) <==> HasRoom(w, id)
    ensures HasRoom(w, id) ==> Tables(w.rooms)[id] == TableOf(RoomGame(w, id))
  {
    TablesShow(w);
    if id in Tables(w.rooms) {
      assert StoredId(w.rooms, id);
    }
    if HasRoom(w, id) {
      RoomLookup(w, FindRoom(w.rooms, id));
    }
  }

  // ----- Changing one client

  lemma PutShows(cs: seq<ClientRec>, m: map<string, Player>, i: nat, c: ClientRec)
    requires i < |cs| && NicksDistinct(cs) && NicksDistinct(cs[i := c]) && Shows(cs, m)
    ensures Shows(cs[i := c], (m - {cs[i].nick}) + Entry(c))
  {
    var cs', m' := cs[i := c], (m - {cs[i].nick}) + Entry(c);
    forall k | 0 <= k < |cs'| && cs'[k].nick != "" ensures Has(m', cs'[k]) {
      if k != i {
        assert Has(m, cs[k]);
        assert cs'[i] == c && cs'[k].nick != c.nick && cs[k].nick != cs[i].nick;
      }
    }
    forall n | n in m' ensures Owned(cs', n) {
      if n in Entry(c) {
        assert cs'[i].nick == n;
      } else {
        assert Owned(cs, n);
        var k :| 0 <= k < |cs| && cs[k].nick == n;
        assert cs'[k].nick == n;
      }
    }
  }

  lemma PutPlayers(cs: seq<ClientRec>, i: nat, c: ClientRec)
    requires i < |cs| && NicksDistinct(cs) && NicksDistinct(cs[i := c])
    ensures Players(cs[i := c]) == (Players(cs) - {cs[i].nick}) + Entry(c)
  {
    PlayersShow(cs);
    PutShows(cs, Players(cs), i, c);
    ShownPlayers(cs[i := c], (Players(cs) - {cs[i].nick}) + Entry(c));
  }

  lemma DropShows(cs: seq<ClientRec>, m: map<string, Player>, i: nat)
    requires i < |cs| && NicksDistinct(cs) && Shows(cs, m)
    ensures NicksDistinct(Without(cs, i)) && Shows(Without(cs, i), m - {cs[i].nick})
  {
    var cs' := Without(cs, i);
    forall k | 0 <= k < |cs'| && cs'[k].nick != "" ensures Has(m - {cs[i].nick}, cs'[k]) {
      assert Has(m, cs[if k < i then k else k + 1]);
    }
    DropOwned(cs, m, i);
  }

  lemma DropOwned(cs: seq<ClientRec>, m: map<string, Player>, i: nat)
    requires i < |cs| && Shows(cs, m)
    ensures forall n :: n in m - {cs[i].nick} ==> Owned(Without(cs, i), n)
  {
    var cs' := Without(cs, i);
    forall n | n in m - {cs[i].nick} ensures Owned(cs', n) {
      assert Owned(cs, n);
      var k :| 0 <= k < |cs| && cs[k].nick == n;
      assert cs'[if k < i then k else k - 1].nick == n;
    }
  }

  lemma DropPlayers(cs: seq<ClientRec>, i: nat)
    requires i < |cs| && NicksDistinct(cs)
    ensures NicksDistinct(Without(cs, i))
    ensures Players(Without(cs, i)) == Players(cs) - {cs[i].nick}
  {
    PlayersShow(cs);
    DropShows(cs, Players(cs), i);
    ShownPlayers(Without(cs, i), Players(cs) - {cs[i].nick});
  }

  lemma AddShows(cs: seq<ClientRec>, m: map<string, Player>, c: ClientRec)
    requires NicksDistinct(cs) && Shows(cs, m) && c.nick == ""
    ensures NicksDistinct(cs + [c]) && Shows(cs + [c], m)
  {
    var cs' := cs + [c];
    forall k | 0 <= k < |cs'| && cs'[k].nick != "" ensures Has(m, cs'[k]) {
      assert Has(m, cs[k]);
    }
    forall n | n in m ensures Owned(cs', n) {
      assert Owned(cs, n);
      var k :| 0 <= k < |cs| && cs[k].nick == n;
      assert cs'[k].nick == n;
    }
  }

  lemma AddUnnamed(cs: seq<ClientRec>, c: ClientRec)
    requires NicksDistinct(cs) && c.nick == ""
    ensures NicksDistinct(cs + [c]) && Players(cs + [c]) == Players(cs)
  {
    PlayersShow(cs);
    AddShows(cs, Players(cs), c);
    ShownPlayers(cs + [c], Players(cs));
  }

  /** A client that keeps its nick and its logical state and room stays the same player. */
  lemma SamePlayers(cs: seq<ClientRec>, i: nat, c: ClientRec)
    requires i < |cs| && NicksDistinct(cs)
    requires c.nick == cs[i].nick && (c.nick != "" ==> PlayerOf(c) == PlayerOf(cs[i]))
    ensures NicksDistinct(cs[i := c]) && Players(cs[i := c]) == Players(cs)
  {
    PlayersShow(cs);
    var m := Players(cs);
    PutShows(cs, m, i, c);
    ReplaceEntry(cs, m, i, c);
    ShownPlayers(cs[i := c], m);
  }

  lemma ReplaceEntry(cs: seq<ClientRec>, m: map<string, Player>, i: nat, c: ClientRec)
    requires i < |cs| && Shows(cs, m)
    requires c.nick == cs[i].nick && (c.nick != "" ==> PlayerOf(c) == PlayerOf(cs[i]))
    ensures (m - {cs[i].nick}) + Entry(c) == m
  {
    if c.nick != "" { assert Has(m, cs[i]); }
    assert "" !in m by { assert !Owned(cs, ""); }
  }

  /** A client that keeps its nick but not its logical state or room. */
  lemma OtherPlayer(cs: seq<ClientRec>, i: nat, c: ClientRec)
    requires i < |cs| && NicksDistinct(cs)
    requires c.nick == cs[i].nick && c.nick != ""
    ensures NicksDistinct(cs[i := c]) && Players(cs[i := c]) == Players(cs)[c.nick := PlayerOf(c)]
  {
    PutPlayers(cs, i, c);
    Overwrite(Players(cs), c.nick, PlayerOf(c));
  }

  lemma Overwrite<K, V>(m: map<K, V>, k: K, v: V)
    ensures (m - {k}) + map[k := v] == m[k := v]
  {
  }

  /** A nameless client that gets a nick nobody has. */
  lemma NamedPlayer(cs: seq<ClientRec>, i: nat, c: ClientRec)
    requires i < |cs| && NicksDistinct(cs)
    requires cs[i].nick == "" && c.nick != "" && FindNick(cs, c.nick) == |cs|
    ensures NicksDistinct(cs[i := c])
    ensures c.nick !in Players(cs) && Players(cs[i := c]) == Players(cs)[c.nick := PlayerOf(c)]
  {
    PlayersShow(cs);
    NamedShows(cs, Players(cs), i, c);
    ShownPlayers(cs[i := c], Players(cs)[c.nick := PlayerOf(c)]);
  }

  lemma NamedShows(cs: seq<ClientRec>, m: map<string, Player>, i: nat, c: ClientRec)
    requires i < |cs| && NicksDistinct(cs) && Shows(cs, m)
    requires cs[i].nick == "" && c.nick != "" && FindNick(cs, c.nick) == |cs|
    ensures NicksDistinct(cs[i := c]) && c.nick !in m && Shows(cs[i := c], m[c.nick := PlayerOf(c)])
  {
    assert c.nick !in m by { assert !Owned(cs, c.nick); }
    var cs' := cs[i := c];
    forall k | 0 <= k < |cs'| && cs'[k].nick != "" ensures Has(m[c.nick := PlayerOf(c)], cs'[k]) {
      if k != i { assert Has(m, cs[k]); }
    }
    forall n | n in m[c.nick := PlayerOf(c)] ensures Owned(cs', n) {
      if n == c.nick {
        assert cs'[i].nick == n;
      } else {
        assert Owned(cs, n);
        var k :| 0 <= k < |cs| && cs[k].nick == n;
        assert cs'[k].nick == n;
      }
    }
  }

  // ----- Changing one room

  lemma PutTable(w: World, r: nat, g: Game)
    requires RoomIdsOk(w) && r < |w.rooms|
    ensures var w' := w.(rooms := w.rooms[r := RoomRec(w.rooms[r].id, g)]);
      RoomIdsOk(w') && Tables(w'.rooms) == Tables(w.rooms)[w.rooms[r].id := TableOf(g)]
  {
    TablesShow(w);
    PutTableShows(w, Tables(w.rooms), r, g);
    ShownTables(w.(rooms := w.rooms[r := RoomRec(w.rooms[r].id, g)]), Tables(w.rooms)[w.rooms[r].id := TableOf(g)]);
  }

  lemma PutTableShows(w: World, m: map<int, Table>, r: nat, g: Game)
    requires RoomIdsOk(w) && r < |w.rooms| && ShowsTables(w.rooms, m)
    ensures var w' := w.(rooms := w.rooms[r := RoomRec(w.rooms[r].id, g)]);
      RoomIdsOk(w') && ShowsTables(w'.rooms, m[w.rooms[r].id := TableOf(g)])
  {
    var rs := w.rooms[r := RoomRec(w.rooms[r].id, g)];
    forall i | 0 <= i < |rs| ensures HasTable(m[w.rooms[r].id := TableOf(g)], rs[i]) {
      assert HasTable(m, w.rooms[i]);
    }
    forall id | id in m[w.rooms[r].id := TableOf(g)] ensures StoredId(rs, id) {
      assert StoredId(w.rooms, id) by { assert id == w.rooms[r].id || StoredId(w.rooms, id); }
      var k :| 0 <= k < |w.rooms| && w.rooms[k].id == id;
      assert rs[k].id == id;
    }
  }

  lemma DropTable(w: World, r: nat)
    requires RoomIdsOk(w) && r < |w.rooms|
    ensures var w' := w.(rooms := Without(w.rooms, r));
      RoomIdsOk(w') && Tables(w'.rooms) == Tables(w.rooms) - {w.rooms[r].id}
  {
    TablesShow(w);
    DropTableShows(w, Tables(w.rooms), r);
    ShownTables(w.(rooms := Without(w.rooms, r)), Tables(w.rooms) - {w.rooms[r].id});
  }

  lemma DropTableShows(w: World, m: map<int, Table>, r: nat)
    requires RoomIdsOk(w) && r < |w.rooms| && ShowsTables(w.rooms, m)
    ensures var w' := w.(rooms := Without(w.rooms, r));
      RoomIdsOk(w') && ShowsTables(w'.rooms, m - {w.rooms[r].id})
  {
    var rs := Without(w.rooms, r);
    forall i | 0 <= i < |rs| ensures HasTable(m - {w.rooms[r].id}, rs[i]) {
      assert HasTable(m, w.rooms[if i < r then i else i + 1]);
    }
    DropStored(w.rooms, m, r);
  }

  lemma DropStored(rs: seq<RoomRec>, m: map<int, Table>, r: nat)
    requires r < |rs| && ShowsTables(rs, m)
    ensures forall id :: id in m - {rs[r].id} ==> StoredId(Without(rs, r), id)
  {
    var rs' := Without(rs, r);
    forall id | id in m - {rs[r].id} ensures StoredId(rs', id) {
      assert StoredId(rs, id);
      var k :| 0 <= k < |rs| && rs[k].id == id;
      assert rs'[if k < r then k else k - 1].id == id;
    }
  }

  lemma AddTable(w: World, nick1: string, nick2: string)
    requires RoomIdsOk(w)
    ensures var w' := CreateRoom(w, nick1, nick2);
      && RoomIdsOk(w') && w'.roomsTotal !in Tables(w.rooms)
      && Tables(w'.rooms) == Tables(w.rooms)[w'.roomsTotal := Table(nick1, nick2)]
  {
    TablesShow(w);
    var r := RoomRec(w.roomsTotal + 1, NewGame(nick1, nick2));
    assert TableOf(r.game) == Table(nick1, nick2);
    AddTableShows(w, Tables(w.rooms), r);
    ShownTables(CreateRoom(w, nick1, nick2), Tables(w.rooms)[w.roomsTotal + 1 := TableOf(r.game)]);
  }

  lemma AddTableShows(w: World, m: map<int, Table>, r: RoomRec)
    requires RoomIdsOk(w) && ShowsTables(w.rooms, m) && r.id == w.roomsTotal + 1
    ensures var w' := w.(rooms := w.rooms + [r], roomsTotal := r.id);
      RoomIdsOk(w') && r.id !in m && ShowsTables(w'.rooms, m[r.id := TableOf(r.game)])
  {
    assert r.id !in m by { assert !StoredId(w.rooms, r.id); }
    var rs := w.rooms + [r];
    forall i | 0 <= i < |rs| ensures HasTable(m[r.id := TableOf(r.game)], rs[i]) {
      if i < |w.rooms| { assert HasTable(m, w.rooms[i]); }
    }
    forall id | id in m[r.id := TableOf(r.game)] ensures StoredId(rs, id) {
      if id != r.id {
        assert StoredId(w.rooms, id);
        var k :| 0 <= k < |w.rooms| && w.rooms[k].id == id;
        assert rs[k].id == id;
      } else {
        assert rs[|w.rooms|].id == id;
      }
    }
  }
}
