/// The ship decision shared by agent_a.py, agent_b.py and current.py
/// (Decesion_Ship / Decision_Ship): convert short-circuits, first_stage's
/// eliminations over the one-move cells, weight_cell, weight_moves over the
/// grid_5 survey, and determine's argmax with its mining fallback. The three
/// revisions differ only in their convert rules, in weight_cell's two
/// factors, and in how weight_moves reads the survey.
module Revisions {
  import opened Wrappers
  import opened Board
  import opened PyDict
  import opened Survey
  import opened Grid5

  datatype Revision = AgentA | AgentB | Current

  /// weight_cell's factors: 'offensive' scales enemy cargo differences,
  /// 'defensive' own yards, and 'raid' enemy yards. agent_a.py and
  /// agent_b.py fix them at 8, 7 and 10; current.py takes 'offensive' and
  /// 'defensive' from ShipTendency and uses 'offensive' for enemy yards too.
  datatype Hyper = Hyper(offensive: real, defensive: real, raid: real)

  const Fixed: Hyper := Hyper(8.0, 7.0, 10.0)

  /// What a decision is built from: the board, the ship as found on it, the
  /// step, the revision, weight_cell's factors, round(_, 3), and the survey
  /// around the ship: the one-move ring, rings two to four in order, and
  /// current.py's flat grid.
  datatype Setting = Setting(b: Snapshot, ship: Ship, step: nat, rev: Revision, hyper: Hyper,
                             round3: real -> real, ring1: seq<Entry>, outer: seq<Entry>, flat: seq<Entry>)

  /// A setting whose survey is grid_5 around the ship.
  ghost predicate Built(s: Setting) {
    && OnBoard(s.ship.pos)
    && s.ring1 == Ring(s.b, s.ship.pos, 1)
    && s.outer == Ring(s.b, s.ship.pos, 2) + Ring(s.b, s.ship.pos, 3) + Ring(s.b, s.ship.pos, 4)
    && s.flat == Flat(s.b, s.ship.pos)
  }

  /// What Decesion_Ship(board, ship, step) sets up: grid_5 around the ship.
  function SettingOf(b: Snapshot, ship: Ship, step: nat, rev: Revision, hyper: Hyper, round3: real -> real): (s: Setting)
    ensures s.b == b && s.ship == ship && s.step == step && s.rev == rev && s.hyper == hyper && s.round3 == round3
    ensures OnBoard(ship.pos) ==> Built(s) && Shaped(s)
  {
    var o := ship.pos;
    var s := Setting(b, ship, step, rev, hyper, round3, Ring(b, o, 1), Ring(b, o, 2) + Ring(b, o, 3) + Ring(b, o, 4), Flat(b, o));
    if OnBoard(o) then BuiltShaped(s); s else s
  }

  /// self.ship_halite: the halite of the ship's cell, not its cargo.
  function ShipHalite(s: Setting): real {
    s.b.cellAt(s.ship.pos).halite
  }

  /// The keys of self.moves before first_stage.
  const AllMoves: set<string> := {"N", "S", "W", "E", "convert", "mine"}

  // ---------------------------------------------------------------------
  // near_end (agent_a.py, current.py)
  // ---------------------------------------------------------------------

  /// An opponent that is out of the game: little halite, no ships, and
  /// less halite than the controlled player.
  predicate Stranded(me: Player, o: Player) {
    o.halite < 500 && |o.ships| == 0 && me.halite > o.halite
  }

  /// How many of opps are stranded.
  function StrandedCount(me: Player, opps: seq<Player>): (n: nat)
    ensures n <= |opps|
  {
    if opps == [] then 0
    else StrandedCount(me, opps[..|opps| - 1]) + (if Stranded(me, opps[|opps| - 1]) then 1 else 0)
  }

  function NearEnd(b: Snapshot): bool {
    StrandedCount(b.me, b.opponents) >= 2
  }

  lemma {:induction false} StrandedSome(me: Player, opps: seq<Player>)
    ensures StrandedCount(me, opps) >= 1 <==> exists i :: 0 <= i < |opps| && Stranded(me, opps[i])
  {
    if opps != [] {
      var init := opps[..|opps| - 1];
      StrandedSome(me, init);
      if exists i :: 0 <= i < |init| && Stranded(me, init[i]) {
        var i :| 0 <= i < |init| && Stranded(me, init[i]);
        assert opps[i] == init[i];
      }
      if exists i :: 0 <= i < |opps| && Stranded(me, opps[i]) {
        var i :| 0 <= i < |opps| && Stranded(me, opps[i]);
        if i < |init| {
          assert init[i] == opps[i];
        }
      }
    }
  }

  lemma {:induction false} StrandedPair(me: Player, opps: seq<Player>)
    ensures StrandedCount(me, opps) >= 2 <==>
              exists i, j :: 0 <= i < j < |opps| && Stranded(me, opps[i]) && Stranded(me, opps[j])
  {
    if opps != [] {
      var init := opps[..|opps| - 1];
      var last := |opps| - 1;
      StrandedPair(me, init);
      StrandedSome(me, init);
      if StrandedCount(me, opps) >= 2 {
        if Stranded(me, opps[last]) {
          var i :| 0 <= i < |init| && Stranded(me, init[i]);
          assert opps[i] == init[i];
        } else {
          var i, j :| 0 <= i < j < |init| && Stranded(me, init[i]) && Stranded(me, init[j]);
          assert opps[i] == init[i] && opps[j] == init[j];
        }
      }
      if exists i, j :: 0 <= i < j < |opps| && Stranded(me, opps[i]) && Stranded(me, opps[j]) {
        var i, j :| 0 <= i < j < |opps| && Stranded(me, opps[i]) && Stranded(me, opps[j]);
        assert init[i] == opps[i];
        if j < last {
          assert init[j] == opps[j];
        }
      }
    }
  }

  /// near_end is true iff at least two opponents are stranded.
  lemma NearEndSpec(b: Snapshot)
    ensures NearEnd(b) <==>
              exists i, j :: 0 <= i < j < |b.opponents| && Stranded(b.me, b.opponents[i]) && Stranded(b.me, b.opponents[j])
  {
    StrandedPair(b.me, b.opponents);
  }

  // ---------------------------------------------------------------------
  // determine's convert short-circuits
  // ---------------------------------------------------------------------

  /// The rules that make determine return 'convert' before any weighting.
  predicate ConvertFirst(s: Setting) {
    || |s.b.me.yards| == 0
    || match s.rev
       case AgentB => (s.step > 393 && s.ship.cargo >= 500) || s.ship.cargo > 2500
       case AgentA => ((s.step >= 395 || NearEnd(s.b)) && s.ship.cargo > 500) || s.ship.cargo > 1500
       case Current => ((s.step > 395 || NearEnd(s.b)) && s.ship.cargo >= 500) || s.ship.cargo > 2500
  }

  // ---------------------------------------------------------------------
  // first_stage
  // ---------------------------------------------------------------------

  /// A one-move cell whose move first_stage deletes: it holds an own ship,
  /// or an enemy ship carrying strictly less than this one.
  predicate Blocked(s: Setting, cell: Cell) {
    cell.ship.Some? && (cell.ship.value.id in ShipIds(s.b.me) || cell.ship.value.cargo < s.ship.cargo)
  }

  /// A one-move cell that also rules out mining: a weaker enemy ship.
  predicate Weaker(s: Setting, cell: Cell) {
    cell.ship.Some? && cell.ship.value.id !in ShipIds(s.b.me) && cell.ship.value.cargo < s.ship.cargo
  }

  /// One pass of first_stage's loop.
  function Eliminate(s: Setting, e: Entry, moves: set<string>): set<string> {
    match e.cell.ship
    case None => moves
    case Some(o) =>
      if o.id in ShipIds(s.b.me) then moves - {e.dir}
      else if o.cargo < s.ship.cargo then moves - {e.dir} - {"mine"}
      else moves
  }

  /// first_stage over the one-move entries es.
  function FirstStage(s: Setting, es: seq<Entry>, moves: set<string>): set<string> {
    if es == [] then moves else Eliminate(s, es[|es| - 1], FirstStage(s, es[..|es| - 1], moves))
  }

  /// A move survives first_stage iff it was there, no blocked cell is keyed
  /// by it, and, for 'mine', no weaker enemy is adjacent.
  lemma {:induction false} FirstStageSpec(s: Setting, es: seq<Entry>, moves: set<string>, k: string)
    ensures k in FirstStage(s, es, moves) <==>
              && k in moves
              && (forall i | 0 <= i < |es| :: !(es[i].dir == k && Blocked(s, es[i].cell)))
              && (k == "mine" ==> forall i | 0 <= i < |es| :: !Weaker(s, es[i].cell))
  {
    if es != [] {
      var init := es[..|es| - 1];
      FirstStageSpec(s, init, moves, k);
      assert forall i | 0 <= i < |init| :: init[i] == es[i];
    }
  }

  // ---------------------------------------------------------------------
  // weight_cell
  // ---------------------------------------------------------------------

  /// What a ship on the cell adds: ten times its cargo against an own ship;
  /// the cargo difference times 'offensive' for an enemy.
  function ShipTerm(s: Setting, cell: Cell): real {
    match cell.ship
    case None => 0.0
    case Some(o) =>
      if o.id in ShipIds(s.b.me) then -10.0 * o.cargo as real
      else (o.cargo as real - s.ship.cargo as real) * s.hyper.offensive
  }

  /// What a shipyard on the cell adds: 'defensive' times (cargo + 10) for an
  /// own yard; 'raid' over one more than its owner's yard count for an
  /// enemy yard.
  function YardTerm(s: Setting, cell: Cell): real {
    match cell.yard
    case None => 0.0
    case Some(y) =>
      if y.id in YardIds(s.b.me) then (s.ship.cargo as real + 10.0) * s.hyper.defensive
      else 1.0 / (OwnerYardCount(s.b, y) as real + 1.0) * s.hyper.raid
  }

  /// weight_cell before rounding.
  function CellScore(s: Setting, cell: Cell): real {
    (cell.halite - ShipHalite(s)) + 2.0 + ShipTerm(s, cell) + YardTerm(s, cell)
  }

  /// weight_cell: the score rounded to three decimals.
  function WeightCell(s: Setting, cell: Cell): real {
    s.round3(CellScore(s, cell))
  }

  /// An empty cell scores its halite less the halite under the ship, plus
  /// 2; an own ship there takes ten times its cargo off that; an own yard
  /// adds 'defensive' times (cargo + 10); an enemy ship adds the cargo
  /// difference times 'offensive'; an enemy yard adds 'raid' over one more
  /// than its owner's yard count. A ship and a yard on one cell add both.
  lemma CellScoreCases(s: Setting, cell: Cell)
    ensures var base := cell.halite - ShipHalite(s) + 2.0;
            && (cell.ship.None? && cell.yard.None? ==> CellScore(s, cell) == base)
            && (cell.ship.Some? && cell.ship.value.id in ShipIds(s.b.me) && cell.yard.None? ==>
                  CellScore(s, cell) == base - 10.0 * cell.ship.value.cargo as real)
            && (cell.ship.Some? && cell.ship.value.id !in ShipIds(s.b.me) && cell.yard.None? ==>
                  CellScore(s, cell) == base + (cell.ship.value.cargo as real - s.ship.cargo as real) * s.hyper.offensive)
            && (cell.ship.None? && cell.yard.Some? && cell.yard.value.id in YardIds(s.b.me) ==>
                  CellScore(s, cell) == base + s.hyper.defensive * (s.ship.cargo as real + 10.0))
            && (cell.ship.None? && cell.yard.Some? && cell.yard.value.id !in YardIds(s.b.me) ==>
                  CellScore(s, cell) == base + s.hyper.raid / (OwnerYardCount(s.b, cell.yard.value) as real + 1.0))
  {
  }

  // ---------------------------------------------------------------------
  // weight_moves
  // ---------------------------------------------------------------------

  /// Python's `a in b` on strings: a is a prefix of b or of some suffix
  /// of b.
  predicate Substring(a: string, b: string) {
    a <= b || (b != [] && Substring(a, b[1..]))
  }

  /// For a one-letter string, `in` is membership of the letter.
  lemma {:induction false} SubstringLetter(c: char, t: string)
    ensures Substring([c], t) <==> c in t
  {
    if t != [] {
      SubstringLetter(c, t[1..]);
      assert t == [t[0]] + t[1..];
    }
  }

  /// The dictionary a loop `for e in es: if keep(e): weights[e.dir] = score(e)`
  /// builds from an empty one.
  function Tabulate(es: seq<Entry>, keep: Entry -> bool, score: Entry -> real): (w: Dict<string, real>)
    ensures Valid(w)
  {
    if es == [] then Empty()
    else
      var w := Tabulate(es[..|es| - 1], keep, score);
      var e := es[|es| - 1];
      if keep(e) then Put(w, e.dir, score(e)) else w
  }

  /// The keys of the kept entries, in order.
  function KeptDirs(es: seq<Entry>, keep: Entry -> bool): seq<string> {
    if es == [] then []
    else KeptDirs(es[..|es| - 1], keep) + (if keep(es[|es| - 1]) then [es[|es| - 1].dir] else [])
  }

  /// No two kept entries share a key.
  predicate DistinctKept(es: seq<Entry>, keep: Entry -> bool) {
    forall i, j | 0 <= i < j < |es| && keep(es[i]) && keep(es[j]) :: es[i].dir != es[j].dir
  }

  lemma {:induction false} KeptDirsMembers(es: seq<Entry>, keep: Entry -> bool, k: string)
    ensures k in KeptDirs(es, keep) <==> exists i :: 0 <= i < |es| && es[i].dir == k && keep(es[i])
  {
    if es != [] {
      var init := es[..|es| - 1];
      KeptDirsMembers(init, keep, k);
      if exists i :: 0 <= i < |init| && init[i].dir == k && keep(init[i]) {
        var i :| 0 <= i < |init| && init[i].dir == k && keep(init[i]);
        assert es[i] == init[i];
      }
      if exists i :: 0 <= i < |es| && es[i].dir == k && keep(es[i]) {
        var i :| 0 <= i < |es| && es[i].dir == k && keep(es[i]);
        if i < |init| {
          assert init[i] == es[i];
        }
      }
    }
  }

  /// With distinct keys, the loop lists the kept keys in order, each with
  /// the score of its own entry.
  lemma {:induction false} TabulateSpec(es: seq<Entry>, keep: Entry -> bool, score: Entry -> real)
    requires DistinctKept(es, keep)
    ensures Tabulate(es, keep, score).keys == KeptDirs(es, keep)
    ensures forall i | 0 <= i < |es| && keep(es[i]) ::
              es[i].dir in Tabulate(es, keep, score).vals && Tabulate(es, keep, score).vals[es[i].dir] == score(es[i])
  {
    if es != [] {
      var init := es[..|es| - 1];
      var e := es[|es| - 1];
      assert DistinctKept(init, keep) by {
        forall i, j | 0 <= i < j < |init| && keep(init[i]) && keep(init[j]) ensures init[i].dir != init[j].dir {
          assert init[i] == es[i] && init[j] == es[j];
        }
      }
      TabulateSpec(init, keep, score);
      KeptDirsMembers(init, keep, e.dir);
      var w := Tabulate(init, keep, score);
      if keep(e) {
        forall i | 0 <= i < |init| && keep(init[i]) ensures init[i].dir != e.dir {
          assert init[i] == es[i];
        }
      }
      forall i | 0 <= i < |es| && keep(es[i])
        ensures es[i].dir in Tabulate(es, keep, score).vals && Tabulate(es, keep, score).vals[es[i].dir] == score(es[i])
      {
        if i < |init| {
          assert es[i] == init[i];
          assert keep(e) ==> es[i].dir != e.dir;
        }
      }
    }
  }

  /// The sum of weight_cell over the entries of es whose key contains d.
  function RingSum(s: Setting, d: string, es: seq<Entry>): real {
    if es == [] then 0.0
    else
      var e := es[|es| - 1];
      RingSum(s, d, es[..|es| - 1]) + (if Substring(d, e.dir) then WeightCell(s, e.cell) else 0.0)
  }

  /// RingSum over one more entry of es.
  lemma RingSumNext(s: Setting, d: string, es: seq<Entry>, j: nat)
    requires j < |es|
    ensures RingSum(s, d, es[..j + 1]) ==
            RingSum(s, d, es[..j]) + (if Substring(d, es[j].dir) then WeightCell(s, es[j].cell) else 0.0)
  {
    assert es[..j + 1][..j] == es[..j];
  }

  /// agent_a.py and agent_b.py keep a one-move key still in moves.
  function RingKeep(moves: set<string>): Entry -> bool {
    (e: Entry) => e.dir in moves
  }

  /// ... and score it by its own cell plus every ring 2-4 cell whose key
  /// contains it.
  function RingScore(s: Setting): Entry -> real {
    (e: Entry) => WeightCell(s, e.cell) + RingSum(s, e.dir, s.outer)
  }

  /// current.py keeps a one-letter key still in moves ...
  function FlatKeep(moves: set<string>): Entry -> bool {
    (e: Entry) => e.dir in moves && |e.dir| == 1
  }

  /// ... and scores it by its own cell only.
  function FlatScore(s: Setting): Entry -> real {
    (e: Entry) => WeightCell(s, e.cell)
  }

  /// The inner condition of current.py's weight_moves.
  predicate Inner(d: string, sub: string) {
    Substring(d, sub) && d != sub && |sub| == 1
  }

  /// It never holds for a one-letter key, so the inner loop adds nothing.
  lemma InnerNever(d: string, sub: string)
    requires |d| == 1
    ensures !Inner(d, sub)
  {
    if |sub| == 1 {
      assert sub[1..] == [];
      assert !Substring(d, sub[1..]);
      if d <= sub {
        assert d == sub[..1] == sub;
      }
    }
  }

  /// weight_moves after first_stage left moves.
  function Weights(s: Setting, moves: set<string>): (w: Dict<string, real>)
    ensures Valid(w)
  {
    match s.rev
    case Current => Tabulate(s.flat, FlatKeep(moves), FlatScore(s))
    case _ => Tabulate(s.ring1, RingKeep(moves), RingScore(s))
  }

  // ---------------------------------------------------------------------
  // determine
  // ---------------------------------------------------------------------

  /// How determine ends: it returns the action of a key of self.moves, or
  /// the lookup of a deleted key raises KeyError.
  datatype Verdict = Pick(key: string) | Missing(key: string)

  /// determine once weighting has happened. With no weight left it returns
  /// self.moves['mine'], which raises when first_stage deleted 'mine';
  /// otherwise 'mine' when mining is allowed and the ship's cell holds more
  /// halite than the best weight, else the first key of highest weight.
  function Choose(s: Setting, moves: set<string>): Verdict {
    var w := Weights(s, moves);
    if w.keys == [] then (if "mine" in moves then Pick("mine") else Missing("mine"))
    else
      var m := FirstMax(w.keys, w.vals).value;
      if "mine" in moves && ShipHalite(s) > w.vals[m] then Pick("mine") else Pick(m)
  }

  /// determine: the key of self.moves whose action is returned, or the
  /// missing key.
  function Determine(s: Setting): Verdict {
    if ConvertFirst(s) then Pick("convert") else Choose(s, FirstStage(s, s.ring1, AllMoves))
  }

  // ---------------------------------------------------------------------
  // What the decision means on the grid_5 survey
  // ---------------------------------------------------------------------

  /// The cell one move from the ship in direction d.
  function Neighbour(s: Setting, d: Dir): Cell {
    s.b.cellAt(Step(s.ship.pos, d))
  }

  /// The one-letter keys of ds that are in moves, in the order of ds.
  function OpenDirs(ds: seq<Dir>, moves: set<string>): seq<string> {
    if ds == [] then []
    else OpenDirs(ds[..|ds| - 1], moves) + (if [Letter(ds[|ds| - 1])] in moves then [[Letter(ds[|ds| - 1])]] else [])
  }

  /// Entries keyed by the letters of ds, in order.
  predicate KeyedBy(es: seq<Entry>, ds: seq<Dir>) {
    |es| == |ds| && forall i | 0 <= i < |es| :: es[i].dir == [Letter(ds[i])]
  }

  lemma {:induction false} KeptOpen(es: seq<Entry>, ds: seq<Dir>, keep: Entry -> bool, moves: set<string>)
    requires KeyedBy(es, ds)
    requires forall i | 0 <= i < |es| :: keep(es[i]) == (es[i].dir in moves)
    ensures KeptDirs(es, keep) == OpenDirs(ds, moves)
  {
    if es != [] {
      KeptOpen(es[..|es| - 1], ds[..|ds| - 1], keep, moves);
    }
  }

  /// Entries after the first n that are never kept add no key.
  lemma {:induction false} KeptDirsPrefix(es: seq<Entry>, n: nat, keep: Entry -> bool)
    requires n <= |es|
    requires forall i | n <= i < |es| :: !keep(es[i])
    ensures KeptDirs(es, keep) == KeptDirs(es[..n], keep)
  {
    if |es| > n {
      KeptDirsPrefix(es[..|es| - 1], n, keep);
      assert es[..|es| - 1][..n] == es[..n];
    } else {
      assert es[..n] == es;
    }
  }

  /// The one-move ring lists N, S, W and E, each with its neighbour.
  lemma RingOne(b: Snapshot, o: Pos, ring1: seq<Entry>)
    requires OnBoard(o) && ring1 == Ring(b, o, 1)
    ensures KeyedBy(ring1, FirstDirs)
    ensures forall i | 0 <= i < 4 :: ring1[i].cell == b.cellAt(Step(o, FirstDirs[i]))
  {
    FirstRing(b, o, 0);
    forall i | 0 <= i < 4
      ensures ring1[i] == Entry([Letter(FirstDirs[i])], b.cellAt(Step(o, FirstDirs[i])))
    {
      FirstRing(b, o, i);
    }
  }

  /// current.py's flat grid starts with the same four entries, and every
  /// later key is longer than one letter.
  lemma FlatOne(b: Snapshot, o: Pos, flat: seq<Entry>, ring1: seq<Entry>)
    requires OnBoard(o) && flat == Flat(b, o) && ring1 == Ring(b, o, 1)
    ensures |flat| == 24 && flat[..4] == ring1
    ensures forall i | 4 <= i < 24 :: |flat[i].dir| != 1
  {
    FlatShape(b, o, 0);
    forall i | 4 <= i < 24 ensures |flat[i].dir| != 1 {
      FlatShape(b, o, i);
    }
    FirstRing(b, o, 0);
    forall i | 0 <= i < 4 ensures flat[i] == ring1[i] {
      FlatHead(b, o, i);
      FirstRing(b, o, i);
    }
  }

  lemma FlatHead(b: Snapshot, o: Pos, i: nat)
    requires OnBoard(o) && i < 4
    ensures |Flat(b, o)| == 24
    ensures Flat(b, o)[i] == Entry([Letter(FirstDirs[i])], b.cellAt(Step(o, FirstDirs[i])))
  {
    var d := FirstDirs[i];
    FlatShape(b, o, i);
    assert FlatPairs[i].0 == One(d, 1);
    SpellOne(d);
    assert Walk(o, [d]) == Walk(Step(o, d), []);
  }

  /// Distinct letters make distinct keys.
  lemma KeyedDistinct(es: seq<Entry>, keep: Entry -> bool)
    requires KeyedBy(es, FirstDirs)
    ensures DistinctKept(es, keep)
  {
    forall i, j | 0 <= i < j < |es| && keep(es[i]) && keep(es[j]) ensures es[i].dir != es[j].dir {
      assert es[i].dir[0] == Letter(FirstDirs[i]) && es[j].dir[0] == Letter(FirstDirs[j]);
    }
  }

  /// weight_moves keys the directions that survived, in the order N, S, W,
  /// E. agent_a.py and agent_b.py weight each by its neighbour plus the
  /// ring 2-4 cells whose key holds its letter; current.py by its neighbour
  /// alone.
  lemma WeightsSpec(s: Setting, moves: set<string>)
    requires Shaped(s)
    ensures Weights(s, moves).keys == OpenDirs(FirstDirs, moves)
    ensures forall i | 0 <= i < 4 && [Letter(FirstDirs[i])] in moves ::
              var d := FirstDirs[i];
              && [Letter(d)] in Weights(s, moves).vals
              && Weights(s, moves).vals[[Letter(d)]] ==
                   WeightCell(s, Neighbour(s, d)) + (if s.rev == Current then 0.0 else RingSum(s, [Letter(d)], s.outer))
  {
    if s.rev == Current {
      var keep, score := FlatKeep(moves), FlatScore(s);
      KeyedDistinct(s.ring1, keep);
      forall i, j | 0 <= i < j < |s.flat| && keep(s.flat[i]) && keep(s.flat[j])
        ensures s.flat[i].dir != s.flat[j].dir
      {
        assert s.flat[i] == s.ring1[i] && s.flat[j] == s.ring1[j];
      }
      TabulateSpec(s.flat, keep, score);
      KeptDirsPrefix(s.flat, 4, keep);
      KeptOpen(s.ring1, FirstDirs, keep, moves);
      forall i | 0 <= i < 4 ensures s.flat[i] == s.ring1[i] {
        assert s.flat[..4][i] == s.flat[i];
      }
    } else {
      var keep, score := RingKeep(moves), RingScore(s);
      KeyedDistinct(s.ring1, keep);
      TabulateSpec(s.ring1, keep, score);
      KeptOpen(s.ring1, FirstDirs, keep, moves);
    }
  }

  /// After first_stage, a direction's key remains iff its neighbour is not
  /// blocked; 'mine' remains iff no neighbour is a weaker enemy; 'convert'
  /// always remains.
  lemma SurvivorsSpec(s: Setting)
    requires Shaped(s)
    ensures var moves := FirstStage(s, s.ring1, AllMoves);
            && (forall i | 0 <= i < 4 :: [Letter(FirstDirs[i])] in moves <==> !Blocked(s, Neighbour(s, FirstDirs[i])))
            && ("mine" in moves <==> forall i | 0 <= i < 4 :: !Weaker(s, Neighbour(s, FirstDirs[i])))
            && "convert" in moves
  {
    var moves := FirstStage(s, s.ring1, AllMoves);
    forall i | 0 <= i < 4
      ensures [Letter(FirstDirs[i])] in moves <==> !Blocked(s, Neighbour(s, FirstDirs[i]))
    {
      var k := [Letter(FirstDirs[i])];
      FirstStageSpec(s, s.ring1, AllMoves, k);
      assert k in AllMoves by { LetterInjective(FirstDirs[i], N); }
      forall j | 0 <= j < 4 && s.ring1[j].dir == k ensures j == i {
        assert s.ring1[j].dir[0] == Letter(FirstDirs[j]);
      }
    }
    FirstStageSpec(s, s.ring1, AllMoves, "mine");
    FirstStageSpec(s, s.ring1, AllMoves, "convert");
    forall j | 0 <= j < 4 ensures s.ring1[j].dir != "mine" && s.ring1[j].dir != "convert" {
      assert |s.ring1[j].dir| == 1;
    }
  }

  /// How determine picks once no convert rule fired: it raises KeyError('mine')
  /// iff no weight is left and mining was deleted; it picks 'mine' iff mining
  /// is still allowed and the ship's cell holds more halite than every
  /// weight; otherwise a weighted key of highest weight such that every key
  /// before it weighs strictly less.
  lemma ChooseSpec(s: Setting, moves: set<string>)
    requires "mine" !in Weights(s, moves).vals
    ensures var w, r := Weights(s, moves), Choose(s, moves);
            && (r.Missing? <==> w.keys == [] && "mine" !in moves)
            && (r.Missing? ==> r.key == "mine")
            && (r == Pick("mine") <==> "mine" in moves && forall k | k in w.vals :: ShipHalite(s) > w.vals[k])
            && (r.Pick? && r.key != "mine" ==>
                  && r.key in w.vals
                  && (forall k | k in w.vals :: w.vals[k] <= w.vals[r.key])
                  && exists i :: 0 <= i < |w.keys| && w.keys[i] == r.key && forall j | 0 <= j < i :: w.vals[w.keys[j]] < w.vals[r.key])
  {
    var w := Weights(s, moves);
    if w.keys != [] {
      FirstMaxIsFirstMaximum(w.keys, w.vals);
      var m := FirstMax(w.keys, w.vals).value;
      assert m in w.vals;
    } else {
      assert forall k | k in w.vals :: k in w.keys;
    }
  }

  /// determine on grid_5: 'convert' exactly when a convert rule fires;
  /// otherwise KeyError('mine') exactly when no direction and not mining
  /// survived first_stage; 'mine' exactly when mining survived and the
  /// ship's cell holds more halite than every surviving direction's weight;
  /// otherwise the first surviving direction, in the order N, S, W, E, of
  /// highest weight.
  lemma DetermineSpec(s: Setting)
    requires Shaped(s)
    ensures Determine(s) == Pick("convert") <==> ConvertFirst(s)
    ensures var moves := FirstStage(s, s.ring1, AllMoves);
            var w := Weights(s, moves);
            var r := Determine(s);
            && w.keys == OpenDirs(FirstDirs, moves)
            && (!ConvertFirst(s) ==>
                  && (r.Missing? <==> w.keys == [] && "mine" !in moves)
                  && (r.Missing? ==> r.key == "mine")
                  && (r == Pick("mine") <==> "mine" in moves && forall k | k in w.vals :: ShipHalite(s) > w.vals[k])
                  && (r.Pick? && r.key != "mine" ==>
                        && r.key in w.keys
                        && (forall k | k in w.vals :: w.vals[k] <= w.vals[r.key])
                        && exists i :: 0 <= i < |w.keys| && w.keys[i] == r.key && forall j | 0 <= j < i :: w.vals[w.keys[j]] < w.vals[r.key]))
  {
    var moves := FirstStage(s, s.ring1, AllMoves);
    var w := Weights(s, moves);
    WeightsSpec(s, moves);
    OpenDirsShort(FirstDirs, moves);
    assert "mine" !in w.vals && "convert" !in w.vals;
    if !ConvertFirst(s) {
      ChooseSpec(s, moves);
    }
  }

  /// determine raises KeyError('mine') exactly when no convert rule fires,
  /// all four neighbours are blocked, and one of them is an enemy ship
  /// carrying less than this ship.
  lemma RaisesSpec(s: Setting)
    requires Shaped(s)
    ensures Determine(s).Missing? <==>
              && !ConvertFirst(s)
              && (forall i | 0 <= i < 4 :: Blocked(s, Neighbour(s, FirstDirs[i])))
              && (exists i | 0 <= i < 4 :: Weaker(s, Neighbour(s, FirstDirs[i])))
    ensures Determine(s).Missing? ==> Determine(s).key == "mine"
  {
    var moves := FirstStage(s, s.ring1, AllMoves);
    DetermineSpec(s);
    SurvivorsSpec(s);
    OpenDirsNone(FirstDirs, moves);
  }

  /// No direction is open iff none of the letters of ds is a key of moves.
  lemma {:induction false} OpenDirsNone(ds: seq<Dir>, moves: set<string>)
    ensures OpenDirs(ds, moves) == [] <==> forall i | 0 <= i < |ds| :: [Letter(ds[i])] !in moves
  {
    if ds != [] {
      var init := ds[..|ds| - 1];
      OpenDirsNone(init, moves);
      assert forall i | 0 <= i < |init| :: init[i] == ds[i];
    }
  }

  /// OpenDirs lists only one-letter keys.
  lemma {:induction false} OpenDirsShort(ds: seq<Dir>, moves: set<string>)
    ensures forall k | k in OpenDirs(ds, moves) :: |k| == 1
  {
    if ds != [] {
      OpenDirsShort(ds[..|ds| - 1], moves);
    }
  }

  /// Entries that list the words of ps in order, each with the cell its
  /// moves lead to from o.
  predicate Matches(b: Snapshot, o: Pos, es: seq<Entry>, ps: seq<(Word, Word)>) {
    |es| == |ps| && forall i | 0 <= i < |es| :: es[i] == Entry(Spell(ps[i].0), b.cellAt(Walk(o, Route(ps[i].0))))
  }

  lemma MatchesAppend(b: Snapshot, o: Pos, es: seq<Entry>, ps: seq<(Word, Word)>, fs: seq<Entry>, qs: seq<(Word, Word)>)
    requires Matches(b, o, es, ps) && Matches(b, o, fs, qs)
    ensures Matches(b, o, es + fs, ps + qs)
  {
    forall i | 0 <= i < |es + fs|
      ensures (es + fs)[i] == Entry(Spell((ps + qs)[i].0), b.cellAt(Walk(o, Route((ps + qs)[i].0))))
    {
      if i >= |es| {
        assert (es + fs)[i] == fs[i - |es|] && (ps + qs)[i] == qs[i - |es|];
      }
    }
  }

  lemma RingTwoMatches(b: Snapshot, o: Pos)
    requires OnBoard(o)
    ensures Matches(b, o, Ring(b, o, 2), Ring5Two)
  {
    RingShape(b, o, 2, 0);
    forall i | 0 <= i < 8 ensures Ring(b, o, 2)[i] == Entry(Spell(Ring5Two[i].0), b.cellAt(Walk(o, Route(Ring5Two[i].0)))) {
      RingShape(b, o, 2, i);
    }
  }

  lemma RingThreeMatches(b: Snapshot, o: Pos)
    requires OnBoard(o)
    ensures Matches(b, o, Ring(b, o, 3), Ring5Three)
  {
    RingShape(b, o, 3, 0);
    forall i | 0 <= i < 8 ensures Ring(b, o, 3)[i] == Entry(Spell(Ring5Three[i].0), b.cellAt(Walk(o, Route(Ring5Three[i].0)))) {
      RingShape(b, o, 3, i);
    }
  }

  lemma RingFourMatches(b: Snapshot, o: Pos)
    requires OnBoard(o)
    ensures Matches(b, o, Ring(b, o, 4), Ring5Four)
  {
    RingShape(b, o, 4, 0);
    forall i | 0 <= i < 4 ensures Ring(b, o, 4)[i] == Entry(Spell(Ring5Four[i].0), b.cellAt(Walk(o, Route(Ring5Four[i].0)))) {
      RingShape(b, o, 4, i);
    }
  }

  /// The ring 2-4 survey lists the words of rings two, three and four of
  /// the grid_5 literal, each with the cell its moves lead to.
  lemma OuterEntries(b: Snapshot, o: Pos, outer: seq<Entry>)
    requires OnBoard(o) && outer == Ring(b, o, 2) + Ring(b, o, 3) + Ring(b, o, 4)
    ensures Matches(b, o, outer, Outer) && |Outer| == 20
  {
    var r2, r3, r4 := Ring(b, o, 2), Ring(b, o, 3), Ring(b, o, 4);
    RingTwoMatches(b, o);
    RingThreeMatches(b, o);
    RingFourMatches(b, o);
    MatchesAppend(b, o, r2, Ring5Two, r3, Ring5Three);
    MatchesAppend(b, o, r2 + r3, Ring5Two + Ring5Three, r4, Ring5Four);
  }

  /// What the lemmas below use of grid_5: the one-move ring is N, S, W, E
  /// with the four neighbours; the flat grid starts with it and has no
  /// other one-letter key; rings two to four list the words of the literal
  /// with the cells their moves lead to.
  ghost predicate Shaped(s: Setting) {
    && KeyedBy(s.ring1, FirstDirs)
    && (forall i | 0 <= i < 4 :: s.ring1[i].cell == Neighbour(s, FirstDirs[i]))
    && |s.flat| == 24 && s.flat[..4] == s.ring1
    && (forall i | 4 <= i < 24 :: |s.flat[i].dir| != 1)
    && Matches(s.b, s.ship.pos, s.outer, Outer)
  }

  lemma BuiltShaped(s: Setting)
    requires Built(s)
    ensures Shaped(s)
  {
    RingOne(s.b, s.ship.pos, s.ring1);
    FlatOne(s.b, s.ship.pos, s.flat, s.ring1);
    OuterEntries(s.b, s.ship.pos, s.outer);
  }

  /// The weight the ring 2-4 cells reached by a path that takes at least one
  /// step towards x contribute, summed in the literal's order.
  function Toward(s: Setting, x: Dir, ps: seq<(Word, Word)>): real {
    if ps == [] then 0.0
    else
      var w := ps[|ps| - 1].0;
      Toward(s, x, ps[..|ps| - 1]) + (if x in Route(w) then WeightCell(s, s.b.cellAt(Walk(s.ship.pos, Route(w)))) else 0.0)
  }

  lemma {:induction false} RingSumToward(s: Setting, x: Dir, es: seq<Entry>, ps: seq<(Word, Word)>)
    requires Matches(s.b, s.ship.pos, es, ps)
    ensures RingSum(s, [Letter(x)], es) == Toward(s, x, ps)
  {
    if es != [] {
      var w := ps[|ps| - 1].0;
      RingSumToward(s, x, es[..|es| - 1], ps[..|ps| - 1]);
      SubstringLetter(Letter(x), Spell(w));
      LetterInLetters(Route(w), x);
    }
  }

  /// Python's `Dir in sub_Dir` selects exactly the ring 2-4 cells whose
  /// path takes a step in the direction: agent_a.py and agent_b.py add to a
  /// direction the weight of every such cell.
  lemma RingSumIsToward(s: Setting, x: Dir)
    requires Shaped(s)
    ensures RingSum(s, [Letter(x)], s.outer) == Toward(s, x, Outer)
  {
    RingSumToward(s, x, s.outer, Outer);
  }
}
