/// The read-only world snapshot that every decision in the bot consumes: a
/// 21x21 toroidal board of cells, the ships and shipyards standing on them,
/// and the players with their banked halite.
module Board {
  import opened Wrappers

  /// Side of the square board; the source hard-codes 21.
  const Size: int := 21

  datatype Pos = Pos(x: int, y: int)

  predicate OnBoard(p: Pos) {
    0 <= p.x < Size && 0 <= p.y < Size
  }

  /// Reduces a coordinate modulo the board side.
  function Wrap(v: int): (r: int)
    ensures 0 <= r < Size
    ensures 0 <= v < Size ==> r == v
  {
    v % Size
  }

  lemma WrapShift(a: int, b: int)
    ensures Wrap(Wrap(a) + b) == Wrap(a + b)
  {
    var q := a / Size;
    assert a == q * Size + Wrap(a);
    assert a + b == q * Size + (Wrap(a) + b);
    ModAddMultiple(Wrap(a) + b, q);
  }

  lemma ModAddMultiple(v: int, q: int)
    ensures (q * Size + v) % Size == v % Size
  {
    var r := v % Size;
    var k := v / Size;
    assert v == k * Size + r;
    assert q * Size + v == (q + k) * Size + r;
  }

  /// The four compass directions, and the letter the bot writes for each.
  datatype Dir = N | E | S | W

  function Letter(d: Dir): char {
    match d
    case N => 'N'
    case E => 'E'
    case S => 'S'
    case W => 'W'
  }

  lemma LetterInjective(d: Dir, e: Dir)
    ensures Letter(d) == Letter(e) <==> d == e
  {
  }

  /// The east-west and north-south displacement of one step: north
  /// increases y and east increases x.
  function DeltaX(d: Dir): int {
    match d
    case E => 1
    case W => -1
    case _ => 0
  }

  function DeltaY(d: Dir): int {
    match d
    case N => 1
    case S => -1
    case _ => 0
  }

  /// p moved dx east and dy north, wrapped around the board.
  function Shift(p: Pos, dx: int, dy: int): (q: Pos)
    ensures OnBoard(q)
  {
    Pos(Wrap(p.x + dx), Wrap(p.y + dy))
  }

  lemma ShiftTwice(p: Pos, dx: int, dy: int, ex: int, ey: int)
    ensures Shift(Shift(p, dx, dy), ex, ey) == Shift(p, dx + ex, dy + ey)
  {
    WrapShift(p.x + dx, ex);
    WrapShift(p.y + dy, ey);
    assert p.x + dx + ex == p.x + (dx + ex);
    assert p.y + dy + ey == p.y + (dy + ey);
  }

  /// One step in compass direction d, as the game library's cell.north,
  /// cell.south, cell.east and cell.west do: the position moved by the
  /// direction's offset, wrapped around the board.
  function Step(p: Pos, d: Dir): (q: Pos)
    ensures OnBoard(q)
  {
    Shift(p, DeltaX(d), DeltaY(d))
  }

  /// The position reached by following the steps of path in order.
  function Walk(p: Pos, path: seq<Dir>): Pos
    decreases |path|
  {
    if path == [] then p else Walk(Step(p, path[0]), path[1..])
  }

  /// The net displacement of a path along each axis.
  function SumX(path: seq<Dir>): int {
    if path == [] then 0 else DeltaX(path[0]) + SumX(path[1..])
  }

  function SumY(path: seq<Dir>): int {
    if path == [] then 0 else DeltaY(path[0]) + SumY(path[1..])
  }

  /// Walking a path on the torus lands where its net displacement says.
  lemma {:induction false} WalkBySums(p: Pos, path: seq<Dir>)
    requires OnBoard(p)
    ensures Walk(p, path) == Shift(p, SumX(path), SumY(path))
    decreases |path|
  {
    if path == [] {
      assert Shift(p, 0, 0) == p;
    } else {
      var d, rest := path[0], path[1..];
      var q := Step(p, d);
      assert Walk(p, path) == Walk(q, rest);
      WalkBySums(q, rest);
      ShiftTwice(p, DeltaX(d), DeltaY(d), SumX(rest), SumY(rest));
    }
  }

  lemma {:induction false} SumAppend(a: seq<Dir>, b: seq<Dir>)
    ensures SumX(a + b) == SumX(a) + SumX(b)
    ensures SumY(a + b) == SumY(a) + SumY(b)
  {
    if a != [] {
      assert (a + b)[1..] == a[1..] + b;
      SumAppend(a[1..], b);
    } else {
      assert a + b == b;
    }
  }

  /// Number of occurrences of c in s.
  function Count<T(==)>(s: seq<T>, c: T): (n: nat)
    ensures n <= |s|
  {
    if s == [] then 0 else (if s[0] == c then 1 else 0) + Count(s[1..], c)
  }

  lemma {:induction false} CountIsMultiplicity<T>(s: seq<T>, c: T)
    ensures Count(s, c) == multiset(s)[c]
  {
    if s != [] {
      CountIsMultiplicity(s[1..], c);
      assert s == [s[0]] + s[1..];
      assert multiset(s) == multiset{s[0]} + multiset(s[1..]);
    }
  }

  lemma {:induction false} CountPositive<T>(s: seq<T>, c: T)
    ensures Count(s, c) > 0 <==> c in s
  {
    if s != [] {
      CountPositive(s[1..], c);
      assert s == [s[0]] + s[1..];
    }
  }

  lemma {:induction false} CountAppend<T>(a: seq<T>, b: seq<T>, c: T)
    ensures Count(a + b, c) == Count(a, c) + Count(b, c)
  {
    if a != [] {
      assert (a + b)[1..] == a[1..] + b;
      CountAppend(a[1..], b, c);
    } else {
      assert a + b == b;
    }
  }

  /// The net displacement is the steps one way less the steps the other way.
  lemma {:induction false} SumsByCounts(path: seq<Dir>)
    ensures SumX(path) == Count(path, E) - Count(path, W)
    ensures SumY(path) == Count(path, N) - Count(path, S)
  {
    if path != [] {
      SumsByCounts(path[1..]);
    }
  }

  /// Two paths that take the same steps in any order reach the same cell.
  lemma SameStepsSameCell(p: Pos, a: seq<Dir>, b: seq<Dir>)
    requires OnBoard(p)
    requires multiset(a) == multiset(b)
    ensures Walk(p, a) == Walk(p, b)
  {
    WalkBySums(p, a);
    WalkBySums(p, b);
    SumsByCounts(a);
    SumsByCounts(b);
    CountIsMultiplicity(a, N); CountIsMultiplicity(b, N);
    CountIsMultiplicity(a, S); CountIsMultiplicity(b, S);
    CountIsMultiplicity(a, E); CountIsMultiplicity(b, E);
    CountIsMultiplicity(a, W); CountIsMultiplicity(b, W);
  }

  /// Ship, shipyard and player ids are opaque strings in the game library.
  type Id = string

  /// A ship: its id, the owning player, the halite it carries and where it is.
  datatype Ship = Ship(id: Id, owner: nat, cargo: nat, pos: Pos)

  datatype Yard = Yard(id: Id, owner: nat, pos: Pos)

  /// A board cell: its halite and at most one ship and one shipyard on it.
  datatype Cell = Cell(pos: Pos, halite: real, ship: Option<Ship>, yard: Option<Yard>)

  /// A player: id, banked halite, and its ships and shipyards in the
  /// library's order.
  datatype Player = Player(id: nat, halite: int, ships: seq<Ship>, yards: seq<Yard>)

  /// One instant of the game as the bot sees it; `me` is the player the bot
  /// controls, `opponents` every other player.
  datatype Snapshot = Snapshot(cellAt: Pos -> Cell, me: Player, opponents: seq<Player>)

  function ShipIds(p: Player): set<Id> {
    set s | s in p.ships :: s.id
  }

  function YardIds(p: Player): set<Id> {
    set y | y in p.yards :: y.id
  }

  /// The first ship in `ships` with the given id.
  function FindShip(ships: seq<Ship>, id: Id): (r: Option<Ship>)
    ensures r.Some? ==> r.value in ships && r.value.id == id
    ensures r.None? <==> forall s | s in ships :: s.id != id
  {
    if ships == [] then None
    else if ships[0].id == id then Some(ships[0])
    else FindShip(ships[1..], id)
  }

  /// Every ship on the board, the controlled player's first.
  function AllShips(b: Snapshot): seq<Ship> {
    b.me.ships + OpponentShips(b.opponents)
  }

  function OpponentShips(ps: seq<Player>): seq<Ship> {
    if ps == [] then [] else ps[0].ships + OpponentShips(ps[1..])
  }

  function AllYards(b: Snapshot): seq<Yard> {
    b.me.yards + OpponentYards(b.opponents)
  }

  function OpponentYards(ps: seq<Player>): seq<Yard> {
    if ps == [] then [] else ps[0].yards + OpponentYards(ps[1..])
  }

  /// board.ships[id]
  function ShipById(b: Snapshot, id: Id): Option<Ship> {
    FindShip(AllShips(b), id)
  }

  lemma OwnShipFound(b: Snapshot, id: Id)
    requires id in ShipIds(b.me)
    ensures ShipById(b, id).Some? && ShipById(b, id).value in b.me.ships
  {
    var s :| s in b.me.ships && s.id == id;
    OwnShipFoundIn(b.me.ships, OpponentShips(b.opponents), s);
  }

  lemma {:induction false} OwnShipFoundIn(mine: seq<Ship>, rest: seq<Ship>, s: Ship)
    requires s in mine
    ensures FindShip(mine + rest, s.id).Some? && FindShip(mine + rest, s.id).value in mine
  {
    assert (mine + rest)[0] == mine[0];
    if mine[0].id != s.id {
      assert s in mine[1..];
      assert (mine + rest)[1..] == mine[1..] + rest;
      OwnShipFoundIn(mine[1..], rest, s);
    }
  }

  /// The first shipyard in `yards` with the given id.
  function FindYard(yards: seq<Yard>, id: Id): (r: Option<Yard>)
    ensures r.Some? ==> r.value in yards && r.value.id == id
    ensures r.None? <==> forall y | y in yards :: y.id != id
  {
    if yards == [] then None
    else if yards[0].id == id then Some(yards[0])
    else FindYard(yards[1..], id)
  }

  /// board.shipyards[id]
  function YardById(b: Snapshot, id: Id): Option<Yard> {
    FindYard(AllYards(b), id)
  }

  /// The player with the given id, looked up among all players.
  function FindPlayer(b: Snapshot, owner: nat): Option<Player> {
    if b.me.id == owner then Some(b.me) else FindPlayerIn(b.opponents, owner)
  }

  function FindPlayerIn(ps: seq<Player>, owner: nat): Option<Player> {
    if ps == [] then None
    else if ps[0].id == owner then Some(ps[0])
    else FindPlayerIn(ps[1..], owner)
  }

  /// The halite banked by the owner of a shipyard (shipyard.player.halite).
  function OwnerHalite(b: Snapshot, y: Yard): int {
    match FindPlayer(b, y.owner)
    case Some(p) => p.halite
    case None => 0
  }

  /// The number of shipyards of the owner of a shipyard
  /// (len(shipyard.player.shipyards)).
  function OwnerYardCount(b: Snapshot, y: Yard): nat {
    match FindPlayer(b, y.owner)
    case Some(p) => |p.yards|
    case None => 0
  }

  /// What the game library guarantees of a snapshot: each cell knows its own
  /// position, and a ship or shipyard stands on the cell of its position.
  ghost predicate WellFormed(b: Snapshot) {
    forall p: Pos {:trigger b.cellAt(p)} ::
      && b.cellAt(p).pos == p
      && (b.cellAt(p).ship.Some? ==> b.cellAt(p).ship.value.pos == p)
      && (b.cellAt(p).yard.Some? ==> b.cellAt(p).yard.value.pos == p)
  }

  /// The ids of a list of ships or shipyards, in list order.
  function IdList<T>(xs: seq<T>, id: T -> Id): (r: seq<Id>)
    ensures |r| == |xs| && forall i | 0 <= i < |xs| :: r[i] == id(xs[i])
  {
    seq(|xs|, i requires 0 <= i < |xs| => id(xs[i]))
  }

  function ShipId(s: Ship): Id { s.id }

  function YardId(y: Yard): Id { y.id }

}
