/// current.py's ShipTendency and its helpers: get_grid_stat sorts the
/// grid_5 cells by what stands on them, LocateObject measures how far
/// every other ship and shipyard is from an object, and ShipTendency turns
/// both into three scaled tendencies (defensive, offensive, mine) that
/// Decision_Ship uses as weight_cell's factors.
module Tendency {
  import opened Wrappers
  import opened Board
  import opened PyDict
  import opened Survey
  import opened Distance
  import opened Grid5

  // ---------------------------------------------------------------------
  // get_grid_stat (current.py:408-431)
  // ---------------------------------------------------------------------

  /// The five lists of the stat dictionary: own and enemy ship ids, own and
  /// enemy shipyards, and the cells with nothing on them.
  datatype GridStat = GridStat(myShips: seq<Id>, myYards: seq<Yard>, oppShips: seq<Id>, oppYards: seq<Yard>,
                               empty: seq<Cell>)

  const NoStat := GridStat([], [], [], [], [])

  /// One pass of the loop: a ship is listed by its owner's side, otherwise
  /// a shipyard by its owner's side, otherwise the cell as empty.
  function Classify(p: Player, st: GridStat, c: Cell): GridStat {
    if c.ship.Some? then
      if c.ship.value.id in ShipIds(p) then st.(myShips := st.myShips + [c.ship.value.id])
      else st.(oppShips := st.oppShips + [c.ship.value.id])
    else if c.yard.Some? then
      if c.yard.value.id in YardIds(p) then st.(myYards := st.myYards + [c.yard.value])
      else st.(oppYards := st.oppYards + [c.yard.value])
    else st.(empty := st.empty + [c])
  }

  function GridStatOf(p: Player, es: seq<Entry>): GridStat {
    if es == [] then NoStat else Classify(p, GridStatOf(p, es[..|es| - 1]), es[|es| - 1].cell)
  }

  /// The bucket a cell belongs in.
  datatype Kind = MyShip | OppShip | MyYard | OppYard | NoObject

  function KindOf(p: Player, c: Cell): Kind {
    match (c.ship, c.yard)
    case (Some(s), _) => if s.id in ShipIds(p) then MyShip else OppShip
    case (None, Some(y)) => if y.id in YardIds(p) then MyYard else OppYard
    case (None, None) => NoObject
  }

  /// How many entries of es are of kind k.
  function CountKind(p: Player, es: seq<Entry>, k: Kind): nat {
    if es == [] then 0
    else CountKind(p, es[..|es| - 1], k) + (if KindOf(p, es[|es| - 1].cell) == k then 1 else 0)
  }

  function Size(st: GridStat, k: Kind): nat {
    match k
    case MyShip => |st.myShips|
    case OppShip => |st.oppShips|
    case MyYard => |st.myYards|
    case OppYard => |st.oppYards|
    case NoObject => |st.empty|
  }

  /// Every entry lands in exactly one list: each list is as long as the
  /// number of entries of its kind, and the lengths add up to the number of
  /// entries.
  lemma {:induction false} GridStatSpec(p: Player, es: seq<Entry>)
    ensures forall k :: Size(GridStatOf(p, es), k) == CountKind(p, es, k)
    ensures Size(GridStatOf(p, es), MyShip) + Size(GridStatOf(p, es), OppShip) + Size(GridStatOf(p, es), MyYard)
            + Size(GridStatOf(p, es), OppYard) + Size(GridStatOf(p, es), NoObject) == |es|
  {
    if es != [] {
      GridStatSpec(p, es[..|es| - 1]);
    }
  }

  /// A ship takes precedence over a shipyard on the same cell: the cell
  /// adds its ship's id and leaves the shipyard lists alone.
  lemma ShipFirst(p: Player, st: GridStat, c: Cell)
    requires c.ship.Some? && c.yard.Some?
    ensures var r := Classify(p, st, c);
            && r.myYards == st.myYards && r.oppYards == st.oppYards && r.empty == st.empty
            && (r.myShips == st.myShips + [c.ship.value.id] || r.oppShips == st.oppShips + [c.ship.value.id])
  {
  }

  /// get_grid_stat(grid, player).
  method GetGridStat(grid: seq<Entry>, p: Player) returns (stat: GridStat)
    ensures stat == GridStatOf(p, grid)
  {
    var myShips, myYards, oppShips, oppYards, empty := [], [], [], [], [];
    for i := 0 to |grid|
      invariant GridStat(myShips, myYards, oppShips, oppYards, empty) == GridStatOf(p, grid[..i])
    {
      var cell := grid[i].cell;
      if cell.ship.Some? {
        if cell.ship.value.id in ShipIds(p) {
          myShips := myShips + [cell.ship.value.id];
        } else {
          oppShips := oppShips + [cell.ship.value.id];
        }
      } else if cell.yard.Some? {
        if cell.yard.value.id in YardIds(p) {
          myYards := myYards + [cell.yard.value];
        } else {
          oppYards := oppYards + [cell.yard.value];
        }
      } else {
        empty := empty + [cell];
      }
      assert grid[..i + 1][..i] == grid[..i];
    }
    assert grid[..|grid|] == grid;
    stat := GridStat(myShips, myYards, oppShips, oppYards, empty);
  }

  // ---------------------------------------------------------------------
  // LocateObject (current.py:4-59)
  // ---------------------------------------------------------------------

  /// A ship or shipyard as locate_ships and locate_yards see it: its id,
  /// where it is, and whether the object's player owns it.
  datatype Item = Item(id: Id, pos: Pos, own: bool)

  function ShipItems(ships: seq<Ship>, p: Player): (r: seq<Item>)
    ensures |r| == |ships|
    ensures forall i | 0 <= i < |ships| :: r[i] == Item(ships[i].id, ships[i].pos, ships[i] in p.ships)
  {
    seq(|ships|, i requires 0 <= i < |ships| => Item(ships[i].id, ships[i].pos, ships[i] in p.ships))
  }

  function YardItems(yards: seq<Yard>, p: Player): (r: seq<Item>)
    ensures |r| == |yards|
    ensures forall i | 0 <= i < |yards| :: r[i] == Item(yards[i].id, yards[i].pos, yards[i] in p.yards)
  {
    seq(|yards|, i requires 0 <= i < |yards| => Item(yards[i].id, yards[i].pos, yards[i] in p.yards))
  }

  /// A distance table: a dictionary whose values are never negative.
  predicate Distances(d: Dict<Id, int>) {
    Valid(d) && forall k | k in d.vals :: d.vals[k] >= 0
  }

  /// The two dictionaries locate_ships and locate_yards fill: every item
  /// other than the object itself, keyed by id, with count_moves from the
  /// object's position, in the own table or the opponent table.
  function Split(items: seq<Item>, self: Id, from: Pos): (r: (Dict<Id, int>, Dict<Id, int>))
    ensures Distances(r.0) && Distances(r.1)
  {
    if items == [] then (Empty(), Empty())
    else
      var (mine, theirs) := Split(items[..|items| - 1], self, from);
      var it := items[|items| - 1];
      if it.id != self && it.own then (Put(mine, it.id, CountMoves(from, it.pos)), theirs)
      else if it.id != self then (mine, Put(theirs, it.id, CountMoves(from, it.pos)))
      else (mine, theirs)
  }

  /// No two items share an id, as the game's ids are unique.
  predicate UniqueIds(items: seq<Item>) {
    forall i, j | 0 <= i < j < |items| :: items[i].id != items[j].id
  }

  /// An id is in the own table iff an own item other than the object
  /// carries it, and in the opponent table iff such an item is not own; its
  /// value is the item's count_moves from the object.
  lemma {:induction false} SplitSpec(items: seq<Item>, self: Id, from: Pos, i: nat)
    requires UniqueIds(items) && i < |items|
    ensures var (mine, theirs) := Split(items, self, from);
            var it := items[i];
            && (it.id in mine.vals <==> it.id != self && it.own)
            && (it.id in theirs.vals <==> it.id != self && !it.own)
            && (it.id in mine.vals ==> mine.vals[it.id] == CountMoves(from, it.pos))
            && (it.id in theirs.vals ==> theirs.vals[it.id] == CountMoves(from, it.pos))
  {
    var init := items[..|items| - 1];
    if i < |init| {
      UniquePrefix(items);
      SplitSpec(init, self, from, i);
      assert items[i] == init[i];
      assert items[|items| - 1].id != items[i].id;
    } else {
      SplitNone(init, self, from, items[i].id);
    }
  }

  /// Dropping the last item keeps the ids unique.
  lemma UniquePrefix(items: seq<Item>)
    requires UniqueIds(items) && items != []
    ensures UniqueIds(items[..|items| - 1])
  {
    var init := items[..|items| - 1];
    forall a, b | 0 <= a < b < |init| ensures init[a].id != init[b].id {
      assert init[a] == items[a] && init[b] == items[b];
    }
  }

  /// Only ids of listed items reach the tables.
  lemma {:induction false} SplitNone(items: seq<Item>, self: Id, from: Pos, k: Id)
    requires forall j | 0 <= j < |items| :: items[j].id != k
    ensures k !in Split(items, self, from).0.vals && k !in Split(items, self, from).1.vals
  {
    if items != [] {
      SplitNone(items[..|items| - 1], self, from, k);
    }
  }

  /// What surroundings returns. Line 56 assigns the opponent-yard table to
  /// the name that held the opponent-ship table, so "opp_ships" holds yard
  /// distances and the opponent ships are lost.
  datatype Nearby = Nearby(myShips: Dict<Id, int>, oppShips: Dict<Id, int>, myYards: Dict<Id, int>)

  class LocateObject {
    const b: Snapshot
    /// The object's owner, id and position.
    const player: Player
    const self: Id
    const pos: Pos

    constructor (b: Snapshot, player: Player, self: Id, pos: Pos)
      ensures this.b == b && this.player == player && this.self == self && this.pos == pos
    {
      this.b := b;
      this.player := player;
      this.self := self;
      this.pos := pos;
    }

    /// locate_yards: the own and opponent shipyard tables.
    method LocateYards() returns (mine: Dict<Id, int>, theirs: Dict<Id, int>)
      ensures (mine, theirs) == Split(YardItems(AllYards(b), player), self, pos)
    {
      var yards := AllYards(b);
      ghost var items := YardItems(yards, player);
      mine, theirs := Empty(), Empty();
      for i := 0 to |yards|
        invariant (mine, theirs) == Split(items[..i], self, pos)
      {
        var y := yards[i];
        if y.id != self && y in player.yards {
          mine := Put(mine, y.id, CountMoves(pos, y.pos));
        } else if y.id != self {
          theirs := Put(theirs, y.id, CountMoves(pos, y.pos));
        }
        assert items[..i + 1][..i] == items[..i];
      }
      assert items[..|yards|] == items;
    }

    /// locate_ships: the own and opponent ship tables.
    method LocateShips() returns (mine: Dict<Id, int>, theirs: Dict<Id, int>)
      ensures (mine, theirs) == Split(ShipItems(AllShips(b), player), self, pos)
    {
      var ships := AllShips(b);
      ghost var items := ShipItems(ships, player);
      mine, theirs := Empty(), Empty();
      for i := 0 to |ships|
        invariant (mine, theirs) == Split(items[..i], self, pos)
      {
        var s := ships[i];
        if s.id != self && s in player.ships {
          mine := Put(mine, s.id, CountMoves(pos, s.pos));
        } else if s.id != self {
          theirs := Put(theirs, s.id, CountMoves(pos, s.pos));
        }
        assert items[..i + 1][..i] == items[..i];
      }
      assert items[..|ships|] == items;
    }

    /// surroundings, as written: "opp_ships" ends up holding the opponent
    /// shipyard table.
    method Surroundings() returns (r: Nearby)
      ensures r == Objects(b, player, self, pos)
    {
      var myShips, oppShips := LocateShips();
      var myYards, oppYards := LocateYards();
      oppShips := oppYards;
      r := Nearby(myShips, oppShips, myYards);
    }
  }

  // ---------------------------------------------------------------------
  // ShipTendency (current.py:256-391)
  // ---------------------------------------------------------------------

  datatype Tendencies = Tendencies(defensive: real, offensive: real, mine: real)

  const Zero := Tendencies(0.0, 0.0, 0.0)

  /// base_analysis: what the grid around the ship adds.
  function Base(st: GridStat, t: Tendencies): Tendencies {
    var t1 := if |st.myYards| == 0 then t.(defensive := t.defensive + 10.0)
              else Tendencies(t.defensive + 1.0, t.offensive + 5.0, t.mine + 2.0);
    var t2 := if |st.myShips| <= |st.oppShips| then t1.(defensive := t1.defensive + 10.0)
              else t1.(offensive := t1.offensive + 6.0, mine := t1.mine + 4.0);
    if |st.myYards| <= |st.oppYards| then t2.(defensive := t2.defensive + 12.0, offensive := t2.offensive + 5.0)
    else Tendencies(t2.defensive + 5.0, t2.offensive + 8.0, t2.mine + 10.0)
  }

  predicate NonNegative(t: Tendencies) {
    t.defensive >= 0.0 && t.offensive >= 0.0 && t.mine >= 0.0
  }

  /// From zero, base_analysis leaves defensive between 6 and 32, offensive
  /// between 5 and 19, mine at most 16, and none of them negative. Mine
  /// stays zero exactly when the grid holds no own shipyard and no more own
  /// ships than enemy ones.
  lemma BaseBounds(st: GridStat)
    ensures var t := Base(st, Zero);
            && NonNegative(t) && 6.0 <= t.defensive <= 32.0 && 5.0 <= t.offensive <= 19.0 && t.mine <= 16.0
    ensures Base(st, Zero).mine == 0.0 <==> |st.myYards| == 0 && |st.myShips| <= |st.oppShips|
  {
  }

  /// The sum of c / |d + 1| over the distances of a table, in key order.
  function InverseSum(ks: seq<Id>, vals: map<Id, int>, c: real): real
    requires forall k | k in ks :: k in vals && vals[k] >= 0
  {
    if ks == [] then 0.0
    else InverseSum(ks[..|ks| - 1], vals, c) + c / (Abs(vals[ks[|ks| - 1]] + 1) as real)
  }

  function Inverse(d: Dict<Id, int>, c: real): real
    requires Distances(d)
  {
    InverseSum(d.keys, d.vals, c)
  }

  /// With a non-negative factor every term is non-negative, and each one is
  /// at most the factor.
  lemma {:induction false} InverseBounds(ks: seq<Id>, vals: map<Id, int>, c: real)
    requires forall k | k in ks :: k in vals && vals[k] >= 0
    requires c >= 0.0
    ensures 0.0 <= InverseSum(ks, vals, c) <= c * |ks| as real
  {
    if ks != [] {
      var init := ks[..|ks| - 1];
      InverseBounds(init, vals, c);
      var v := Abs(vals[ks[|ks| - 1]] + 1) as real;
      assert v >= 1.0;
      assert c / v <= c by {
        assert c / v * v == c;
      }
    }
  }

  /// What LocateObject(board, obj).surroundings() returns for an object
  /// of player p with the given id and position.
  function Objects(b: Snapshot, p: Player, self: Id, from: Pos): (r: Nearby)
    ensures Distances(r.myShips) && Distances(r.oppShips) && Distances(r.myYards)
  {
    var ships := Split(ShipItems(AllShips(b), p), self, from);
    var yards := Split(YardItems(AllYards(b), p), self, from);
    Nearby(ships.0, yards.1, yards.0)
  }

  /// The opponent shipyard table of an object of player p.
  function OppYards(b: Snapshot, p: Player, self: Id, from: Pos): (r: Dict<Id, int>)
    ensures Distances(r)
  {
    Split(YardItems(AllYards(b), p), self, from).1
  }

  /// analyze_yard_stat for one own shipyard: the surroundings' "opp_ships"
  /// entry adds to defensive, own ships near it to offensive.
  function YardStep(b: Snapshot, y: Yard, t: Tendencies): Tendencies {
    var a := Objects(b, b.me, y.id, y.pos);
    t.(defensive := t.defensive + Inverse(a.oppShips, 2.0), offensive := t.offensive + Inverse(a.myShips, 1.5))
  }

  function YardPass(b: Snapshot, yards: seq<Yard>, t: Tendencies): Tendencies {
    if yards == [] then t else YardStep(b, yards[|yards| - 1], YardPass(b, yards[..|yards| - 1], t))
  }

  /// analyze_ship_stat for one other own ship: own ships near it add to
  /// offensive, the surroundings' "opp_ships" entry to defensive, enemy
  /// shipyards to offensive, and own shipyards to both.
  function ShipStep(b: Snapshot, s: Ship, t: Tendencies): Tendencies {
    var a := Objects(b, b.me, s.id, s.pos);
    var oppYards := OppYards(b, b.me, s.id, s.pos);
    t.(offensive := t.offensive + Inverse(a.myShips, 2.0) + Inverse(oppYards, 2.0) + Inverse(a.myYards, 2.0),
       defensive := t.defensive + Inverse(a.oppShips, 2.0) + Inverse(a.myYards, 1.0))
  }

  /// The own ships other than the deciding one, in order.
  function ShipPass(b: Snapshot, ships: seq<Ship>, self: Id, t: Tendencies): Tendencies {
    if ships == [] then t
    else
      var r := ShipPass(b, ships[..|ships| - 1], self, t);
      var s := ships[|ships| - 1];
      if s.id != self then ShipStep(b, s, r) else r
  }

  /// Neither analysis takes anything away from any tendency.
  lemma {:induction false} YardPassGrows(b: Snapshot, yards: seq<Yard>, t: Tendencies)
    ensures var r := YardPass(b, yards, t);
            r.defensive >= t.defensive && r.offensive >= t.offensive && r.mine == t.mine
  {
    if yards != [] {
      YardPassGrows(b, yards[..|yards| - 1], t);
      var y := yards[|yards| - 1];
      var a := Objects(b, b.me, y.id, y.pos);
      InverseBounds(a.oppShips.keys, a.oppShips.vals, 2.0);
      InverseBounds(a.myShips.keys, a.myShips.vals, 1.5);
    }
  }

  lemma {:induction false} ShipPassGrows(b: Snapshot, ships: seq<Ship>, self: Id, t: Tendencies)
    ensures var r := ShipPass(b, ships, self, t);
            r.defensive >= t.defensive && r.offensive >= t.offensive && r.mine == t.mine
  {
    if ships != [] {
      ShipPassGrows(b, ships[..|ships| - 1], self, t);
      var s := ships[|ships| - 1];
      var a := Objects(b, b.me, s.id, s.pos);
      var oppYards := OppYards(b, b.me, s.id, s.pos);
      InverseBounds(a.myShips.keys, a.myShips.vals, 2.0);
      InverseBounds(a.oppShips.keys, a.oppShips.vals, 2.0);
      InverseBounds(a.myYards.keys, a.myYards.vals, 2.0);
      InverseBounds(a.myYards.keys, a.myYards.vals, 1.0);
      InverseBounds(oppYards.keys, oppYards.vals, 2.0);
    }
  }

  function Total(t: Tendencies): real {
    t.defensive + t.offensive + t.mine
  }

  /// scale: each tendency divided by their sum.
  function Scaled(t: Tendencies): Tendencies
    requires Total(t) != 0.0
  {
    Tendencies(t.defensive / Total(t), t.offensive / Total(t), t.mine / Total(t))
  }

  /// Scaling non-negative tendencies with a positive sum yields three values
  /// in [0, 1] that add up to 1; a positive one stays positive and a zero
  /// one stays zero.
  lemma ScaledSpec(t: Tendencies)
    requires NonNegative(t) && Total(t) > 0.0
    ensures var r := Scaled(t);
            && NonNegative(r) && r.defensive <= 1.0 && r.offensive <= 1.0 && r.mine <= 1.0
            && Total(r) == 1.0
            && (r.defensive > 0.0 <==> t.defensive > 0.0)
            && (r.offensive > 0.0 <==> t.offensive > 0.0)
            && (r.mine > 0.0 <==> t.mine > 0.0)
  {
    var s := Total(t);
    var r := Scaled(t);
    assert r.defensive * s == t.defensive && r.offensive * s == t.offensive && r.mine * s == t.mine;
    calc {
      Total(r) * s;
      r.defensive * s + r.offensive * s + r.mine * s;
      t.defensive + t.offensive + t.mine;
      s;
    }
  }

  /// The tendencies before scaling: base_analysis, then analyze_ship_stat,
  /// then analyze_yard_stat.
  function Analysed(b: Snapshot, ship: Ship, st: GridStat): Tendencies {
    YardPass(b, b.me.yards, ShipPass(b, b.me.ships, ship.id, Base(st, Zero)))
  }

  /// Before scaling, defensive is at least 6, offensive at least 5 and
  /// nothing is negative, so scale never divides by zero; mine is what
  /// base_analysis left.
  lemma AnalysedSpec(b: Snapshot, ship: Ship, st: GridStat)
    ensures NonNegative(Analysed(b, ship, st)) && Analysed(b, ship, st).defensive >= 6.0
    ensures Analysed(b, ship, st).offensive >= 5.0 && Analysed(b, ship, st).mine == Base(st, Zero).mine
    ensures Total(Analysed(b, ship, st)) >= 11.0
  {
    BaseBounds(st);
    var t := Base(st, Zero);
    ShipPassGrows(b, b.me.ships, ship.id, t);
    YardPassGrows(b, b.me.yards, ShipPass(b, b.me.ships, ship.id, t));
  }

  /// tend(): the scaled tendencies of a ship. Defensive and offensive are
  /// always positive; mine is zero exactly when the ship's grid holds no
  /// own shipyard and no more own ships than enemy ones.
  function Tended(b: Snapshot, ship: Ship): (r: Tendencies)
    ensures NonNegative(r) && r.defensive <= 1.0 && r.offensive <= 1.0 && r.mine <= 1.0
    ensures Total(r) == 1.0 && r.defensive > 0.0 && r.offensive > 0.0
    ensures var st := GridStatOf(b.me, Flat(b, ship.pos));
            r.mine == 0.0 <==> |st.myYards| == 0 && |st.myShips| <= |st.oppShips|
  {
    var st := GridStatOf(b.me, Flat(b, ship.pos));
    var t := Analysed(b, ship, st);
    AnalysedSpec(b, ship, st);
    BaseBounds(st);
    ScaledSpec(t);
    Scaled(t)
  }

  class ShipTendency {
    const b: Snapshot
    const ship: Ship
    const cargo: nat
    const grid: seq<Entry>
    const stat: GridStat
    var defensive: real
    var offensive: real
    var mine: real

    /// The grid and its stat belong to the ship.
    predicate Valid() {
      grid == Flat(b, ship.pos) && stat == GridStatOf(b.me, grid)
    }

    function State(): Tendencies
      reads this
    {
      Tendencies(defensive, offensive, mine)
    }

    constructor (b: Snapshot, ship: Ship)
      ensures this.b == b && this.ship == ship && cargo == ship.cargo
      ensures Valid() && State() == Zero
    {
      this.b := b;
      this.ship := ship;
      cargo := ship.cargo;
      var g := Flat(b, ship.pos);
      var st := GetGridStat(g, b.me);
      grid := g;
      stat := st;
      defensive, offensive, mine := 0.0, 0.0, 0.0;
    }

    /// base_analysis (current.py:287-312).
    method BaseAnalysis()
      modifies this
      ensures State() == Base(stat, old(State()))
    {
      if |stat.myYards| == 0 {
        defensive := defensive + 10.0;
      } else {
        defensive := defensive + 1.0;
        offensive := offensive + 5.0;
        mine := mine + 2.0;
      }
      if |stat.myShips| <= |stat.oppShips| {
        defensive := defensive + 10.0;
      } else {
        offensive := offensive + 6.0;
        mine := mine + 4.0;
      }
      if |stat.myYards| <= |stat.oppYards| {
        defensive := defensive + 12.0;
        offensive := offensive + 5.0;
      } else {
        defensive := defensive + 5.0;
        offensive := offensive + 8.0;
        mine := mine + 10.0;
      }
    }

    /// `for Id, distance in table.items(): defensive += c / abs(distance + 1)`
    method Defend(table: Dict<Id, int>, c: real)
      requires Distances(table)
      modifies this
      ensures State() == old(State()).(defensive := old(defensive) + Inverse(table, c))
    {
      var ks := table.keys;
      ghost var start := defensive;
      for i := 0 to |ks|
        invariant State() == old(State()).(defensive := start + InverseSum(ks[..i], table.vals, c))
      {
        defensive := defensive + c / (Abs(table.vals[ks[i]] + 1) as real);
        assert ks[..i + 1][..i] == ks[..i];
      }
      assert ks[..|ks|] == ks;
    }

    /// `for Id, distance in table.items(): offensive += c / abs(distance + 1)`
    method Attack(table: Dict<Id, int>, c: real)
      requires Distances(table)
      modifies this
      ensures State() == old(State()).(offensive := old(offensive) + Inverse(table, c))
    {
      var ks := table.keys;
      ghost var start := offensive;
      for i := 0 to |ks|
        invariant State() == old(State()).(offensive := start + InverseSum(ks[..i], table.vals, c))
      {
        offensive := offensive + c / (Abs(table.vals[ks[i]] + 1) as real);
        assert ks[..i + 1][..i] == ks[..i];
      }
      assert ks[..|ks|] == ks;
    }

    /// analyze_yard_stat for one own shipyard (current.py:323-333).
    method AnalyzeYard(y: Yard)
      modifies this
      ensures State() == YardStep(b, y, old(State()))
    {
      var around := new LocateObject(b, b.me, y.id, y.pos);
      var objects := around.Surroundings();
      Defend(objects.oppShips, 2.0);
      Attack(objects.myShips, 1.5);
    }

    /// analyze_yard_stat (current.py:315-333), over the own shipyards.
    method AnalyzeYardStat()
      modifies this
      ensures State() == YardPass(b, b.me.yards, old(State()))
    {
      var yards := b.me.yards;
      for i := 0 to |yards|
        invariant State() == YardPass(b, yards[..i], old(State()))
      {
        AnalyzeYard(yards[i]);
        assert yards[..i + 1][..i] == yards[..i];
      }
      assert yards[..|yards|] == yards;
    }

    /// analyze_ship_stat for one other own ship (current.py:345-363).
    method AnalyzeShip(s: Ship)
      modifies this
      ensures State() == ShipStep(b, s, old(State()))
    {
      var around := new LocateObject(b, b.me, s.id, s.pos);
      var objects := around.Surroundings();
      var _, oppYards := around.LocateYards();
      Attack(objects.myShips, 2.0);
      Defend(objects.oppShips, 2.0);
      Attack(oppYards, 2.0);
      Attack(objects.myYards, 2.0);
      Defend(objects.myYards, 1.0);
    }

    /// analyze_ship_stat (current.py:336-363), over the other own ships.
    method AnalyzeShipStat()
      modifies this
      ensures State() == ShipPass(b, b.me.ships, ship.id, old(State()))
    {
      var ships := b.me.ships;
      for i := 0 to |ships|
        invariant State() == ShipPass(b, ships[..i], ship.id, old(State()))
      {
        if ships[i].id != ship.id {
          AnalyzeShip(ships[i]);
        }
        assert ships[..i + 1][..i] == ships[..i];
      }
      assert ships[..|ships|] == ships;
    }

    /// scale (current.py:367-373); the sum must not be zero.
    method Scale()
      requires Total(State()) != 0.0
      modifies this
      ensures State() == Scaled(old(State()))
    {
      var sum := defensive + offensive + mine;
      defensive := defensive / sum;
      offensive := offensive / sum;
      mine := mine / sum;
    }

    /// The three analyses tend runs before scaling.
    method Analyze()
      requires State() == Zero
      modifies this
      ensures State() == Analysed(b, ship, stat)
    {
      BaseAnalysis();
      AnalyzeShipStat();
      AnalyzeYardStat();
    }

    /// tend (current.py:376-391).
    method Tend() returns (r: Tendencies)
      requires Valid() && State() == Zero
      modifies this
      ensures r == Tended(b, ship)
    {
      Analyze();
      AnalysedSpec(b, ship, stat);
      Scale();
      r := State();
    }
  }
}
