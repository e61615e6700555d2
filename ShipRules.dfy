/// The rules of DecisionShip in mod.py, as functions of what the ship sees:
/// the weight table the rules add into, the list of eliminated moves they
/// append to, the hyperparameters, and the choice made from the table.
/// The class in ShipDecision.dfy runs these rules step by step and is
/// proved to compute exactly these functions.
module ShipRules {
  import opened Wrappers
  import opened Board
  import opened PyDict
  import opened Distance
  import opened Survey
  import opened Moves

  // ---------------------------------------------------------------------
  // Hyperparameters (mod.py:48-96). Cargo and step are integers and `//`
  // is floor division of non-negative integers; the rest is real.
  // ---------------------------------------------------------------------

  function MiningHyper(step: nat): (h: real)
    ensures h >= 10.0
  {
    (10 + step / 40) as real
  }

  /// A non-negative quantity over a positive one is non-negative, and a
  /// positive one over at least one is positive and no larger.
  lemma DivRange(v: real, d: real)
    requires v >= 0.0 && d >= 1.0
    ensures 0.0 <= v / d <= v
    ensures v > 0.0 ==> v / d > 0.0
  {
    assert v / d * d == v;
  }

  lemma ProductAtLeastOne(a: nat, b: nat)
    requires a >= 1 && b >= 1
    ensures a * b >= a && a * b >= b
  {
  }

  function DepositHyper(cargo: nat, step: nat, dist: real, nearEnd: bool): (h: real)
    requires dist >= 0.0
    ensures h >= 5.0
    ensures nearEnd ==> h >= 5005.0
  {
    var q := (5 * (cargo / 300) * (step / 100 + 1)) as real;
    DivRange(q, dist + 1.0);
    5.0 + q / (dist + 1.0) + (if nearEnd then 5000.0 else 0.0)
  }

  /// Positive before step 400, zero at it.
  function DirectionHyper(cargo: nat, step: nat): (h: real)
    ensures h > 0.0 <==> step < 400
    ensures h == 0.0 <==> step == 400
  {
    var d := (cargo / 250 + 1) as real;
    var v := 100.0 * (400 - step) as real;
    assert v / d * d == v;
    v / d
  }

  function GetAwayHyper(cargo: nat): (h: real)
    ensures h <= -10.0
  {
    (-10 * (cargo / 50 + 1)) as real
  }

  function AttackHyper(cargo: nat, step: nat): (h: real)
    ensures 0.0 < h <= 100.0
  {
    var a, b := cargo / 100 + 1, step / 50 + 1;
    ProductAtLeastOne(a, b);
    DivRange(100.0, (a * b) as real);
    100.0 / (a * b) as real
  }

  function DistributionHyper(cargo: nat, step: nat): (h: real)
    ensures -20.0 <= h < 0.0
  {
    var a, b := step / 20 + 1, cargo / 100 + 1;
    ProductAtLeastOne(a, b);
    DivRange(20.0, (a * b) as real);
    -20.0 / (a * b) as real
  }

  function ClosestYardHyper(step: nat): (h: real)
    ensures h >= 1.0
  {
    (step / 25 + 1) as real
  }

  /// CONVERSION: max(60 - 10 * number of own shipyards, 5).
  function ConversionHyper(yards: nat): (h: real)
    ensures 5.0 <= h <= 60.0
    ensures yards >= 6 <==> h == 5.0
  {
    if 60 - 10 * yards > 5 then (60 - 10 * yards) as real else 5.0
  }

  /// More cargo pushes harder away from enemies.
  lemma GetAwayTrend(cargo: nat, more: nat)
    requires cargo <= more
    ensures GetAwayHyper(more) <= GetAwayHyper(cargo)
  {
    assert cargo / 50 <= more / 50;
  }

  /// More cargo and a later step both lower the urge to attack.
  lemma AttackTrend(cargo: nat, more: nat, step: nat, later: nat)
    requires cargo <= more && step <= later
    ensures AttackHyper(more, later) <= AttackHyper(cargo, step)
  {
    assert cargo / 100 <= more / 100;
    assert step / 50 <= later / 50;
    var a, b := cargo / 100 + 1, step / 50 + 1;
    var a', b' := more / 100 + 1, later / 50 + 1;
    ProductMonotone(a, a', b, b');
    ProductAtLeastOne(a, b);
    DivFalls(100.0, (a * b) as real, (a' * b') as real);
  }

  lemma ProductMonotone(a: nat, a': nat, b: nat, b': nat)
    requires a <= a' && b <= b'
    ensures a * b <= a' * b'
  {
    assert a * b <= a' * b;
    assert a' * b <= a' * b';
  }

  /// v / d falls as d grows.
  lemma DivFalls(v: real, d: real, e: real)
    requires v > 0.0 && 0.0 < d <= e
    ensures v / e <= v / d
  {
    assert v / d * d == v && v / e * e == v;
    assert v / e * d <= v / e * e;
  }

  // ---------------------------------------------------------------------
  // The weight table and the elimination list (mod.py:32-34).
  // ---------------------------------------------------------------------

  type Weights = map<Key, real>

  /// Until apply_elimination runs, the table has a weight for every key.
  ghost predicate Full(w: Weights) {
    forall k: Key :: k in w
  }

  /// The iteration order of the weights literal: N, E, W, S, mine, convert,
  /// None.
  const Order: seq<Key> := [Go(N), Go(E), Go(W), Go(S), Mine, Convert, Unset]

  lemma OrderListsEveryKey(k: Key)
    ensures k in Order
  {
    match k
    case Go(d) => assert d == N || d == E || d == W || d == S;
    case _ =>
  }

  lemma OrderComplete()
    ensures forall k: Key :: k in Order
  {
    forall k: Key ensures k in Order {
      OrderListsEveryKey(k);
    }
  }

  /// The constructor's table: every key weighs 0.
  function Initial(): (w: Weights)
    ensures Full(w) && forall k: Key :: w[k] == 0.0
  {
    OrderComplete();
    map k: Key | k in Order :: 0.0
  }

  datatype Tally = Tally(weights: Weights, eliminated: seq<Key>)

  /// Appending current['dir'] to eliminated_moves: a string that names no
  /// key is dropped here, as apply_elimination would ignore it.
  function Eliminate(elim: seq<Key>, dir: string): seq<Key> {
    match KeyOf(dir)
    case Some(k) => elim + [k]
    case None => elim
  }

  // ---------------------------------------------------------------------
  // add_accordingly (mod.py:116-138).
  // ---------------------------------------------------------------------

  /// The share of a value one letter of dir receives: 1 / (len(dir)^2 *
  /// the number of times the letter occurs).
  function Share(dir: string, c: char): real
    requires c in dir
  {
    CountPositive(dir, c);
    1.0 / (|dir| * |dir| * Count(dir, c)) as real
  }

  /// Adds value to the weights along dir: to N if dir has an N, otherwise
  /// to S if it has an S, and likewise to W, otherwise E; each receiving
  /// value times its share. No other weight changes.
  function AddAccordingly(w: Weights, dir: string, value: real): (r: Weights)
    requires Full(w)
    ensures Full(r)
    ensures r[Mine] == w[Mine] && r[Convert] == w[Convert] && r[Unset] == w[Unset]
    ensures 'N' in dir ==> r[Go(N)] == w[Go(N)] + value * Share(dir, 'N') && r[Go(S)] == w[Go(S)]
    ensures 'N' !in dir && 'S' in dir ==> r[Go(S)] == w[Go(S)] + value * Share(dir, 'S') && r[Go(N)] == w[Go(N)]
    ensures 'N' !in dir && 'S' !in dir ==> r[Go(N)] == w[Go(N)] && r[Go(S)] == w[Go(S)]
    ensures 'W' in dir ==> r[Go(W)] == w[Go(W)] + value * Share(dir, 'W') && r[Go(E)] == w[Go(E)]
    ensures 'W' !in dir && 'E' in dir ==> r[Go(E)] == w[Go(E)] + value * Share(dir, 'E') && r[Go(W)] == w[Go(W)]
    ensures 'W' !in dir && 'E' !in dir ==> r[Go(W)] == w[Go(W)] && r[Go(E)] == w[Go(E)]
  {
    var x := if 'W' in dir then w[Go(W) := w[Go(W)] + value * Share(dir, 'W')]
             else if 'E' in dir then w[Go(E) := w[Go(E)] + value * Share(dir, 'E')]
             else w;
    if 'N' in dir then x[Go(N) := x[Go(N)] + value * Share(dir, 'N')]
    else if 'S' in dir then x[Go(S) := x[Go(S)] + value * Share(dir, 'S')]
    else x
  }

  /// A one-letter key adds exactly the value to its own direction.
  lemma AddAccordinglyOneLetter(w: Weights, d: Dir, value: real)
    requires Full(w)
    ensures AddAccordingly(w, [Letter(d)], value) == w[Go(d) := w[Go(d)] + value]
  {
    var dir := [Letter(d)];
    assert Count(dir, Letter(d)) == 1 by { assert dir[1..] == []; }
    var r := AddAccordingly(w, dir, value);
    forall k: Key ensures r[k] == w[Go(d) := w[Go(d)] + value][k] {
      match k
      case Go(e) =>
        LetterInjective(d, e);
        assert forall c: char :: c in dir <==> c == Letter(d);
        LetterInjective(d, N);
        LetterInjective(d, S);
        LetterInjective(d, W);
        LetterInjective(d, E);
      case _ =>
    }
    assert r.Keys == w[Go(d) := w[Go(d)] + value].Keys;
  }

  /// Adding zero changes nothing, and two additions along the same key
  /// make one addition of their sum.
  lemma AddAccordinglyLinear(w: Weights, dir: string, a: real, b: real)
    requires Full(w)
    ensures AddAccordingly(w, dir, 0.0) == w
    ensures AddAccordingly(AddAccordingly(w, dir, a), dir, b) == AddAccordingly(w, dir, a + b)
  {
    var z := AddAccordingly(w, dir, 0.0);
    forall k: Key ensures z[k] == w[k] {
      match k
      case Go(_) =>
      case _ =>
    }
    assert z.Keys == w.Keys;
    var l := AddAccordingly(AddAccordingly(w, dir, a), dir, b);
    var r := AddAccordingly(w, dir, a + b);
    forall k: Key ensures l[k] == r[k] {
      match k
      case Go(_) =>
      case _ =>
    }
    assert l.Keys == r.Keys;
  }

  /// Contributions along two keys can be added in either order.
  lemma AddAccordinglyCommutes(w: Weights, u: string, a: real, v: string, b: real)
    requires Full(w)
    ensures AddAccordingly(AddAccordingly(w, u, a), v, b) == AddAccordingly(AddAccordingly(w, v, b), u, a)
  {
    var l := AddAccordingly(AddAccordingly(w, u, a), v, b);
    var r := AddAccordingly(AddAccordingly(w, v, b), u, a);
    assert l[Go(N)] == r[Go(N)] && l[Go(S)] == r[Go(S)];
    assert l[Go(W)] == r[Go(W)] && l[Go(E)] == r[Go(E)];
    assert l[Mine] == r[Mine] && l[Convert] == r[Convert] && l[Unset] == r[Unset];
    forall k: Key ensures l[k] == r[k] {
      match k
      case Go(d) => assert d == N || d == S || d == W || d == E;
      case _ =>
    }
    assert l.Keys == r.Keys;
  }

  // ---------------------------------------------------------------------
  // What a decision sees (mod.py:16-46).
  // ---------------------------------------------------------------------

  /// The closest own shipyard and its distance; 0.99 stands for "none".
  datatype Nearest = Nearest(yard: Option<Yard>, dist: real)

  const NoYard: real := 0.99

  /// closest_shipyard (mod.py:333-340) over the first yards: a yard replaces
  /// the current pick when it is strictly closer or nothing is picked yet.
  function ClosestOf(yards: seq<Yard>, from: Pos): (r: Nearest)
    ensures r.yard.None? <==> yards == []
    ensures r.yard.None? ==> r.dist == NoYard
    ensures r.yard.Some? ==> r.yard.value in yards && r.dist == MeasureDistance(from, r.yard.value.pos) as real
    ensures r.dist >= 0.0
  {
    if yards == [] then Nearest(None, NoYard)
    else
      var n := ClosestOf(yards[..|yards| - 1], from);
      var y := yards[|yards| - 1];
      var d := MeasureDistance(from, y.pos) as real;
      MeasureDistanceBounds(from, y.pos);
      if n.dist > d || n.dist == NoYard then Nearest(Some(y), d) else n
  }

  /// The yard picked is at least as close as every yard.
  lemma {:induction false} ClosestIsNearest(yards: seq<Yard>, from: Pos)
    ensures forall y | y in yards :: ClosestOf(yards, from).dist <= MeasureDistance(from, y.pos) as real
  {
    if yards != [] {
      var init := yards[..|yards| - 1];
      var last := yards[|yards| - 1];
      ClosestIsNearest(init, from);
      var n := ClosestOf(init, from);
      MeasureDistanceBounds(from, last.pos);
      if init != [] {
        WholeIsNotNoYard(MeasureDistance(from, n.yard.value.pos));
      }
      forall y | y in yards ensures ClosestOf(yards, from).dist <= MeasureDistance(from, y.pos) as real {
        if y != last {
          assert y in init by {
            var i :| 0 <= i < |yards| && yards[i] == y;
            assert init[i] == y;
          }
        }
      }
    }
  }

  /// No measured distance is mistaken for the 0.99 sentinel.
  lemma WholeIsNotNoYard(v: int)
    ensures v as real != NoYard
  {
    if v <= 0 {
      assert v as real <= 0.0;
    } else {
      assert v as real >= 1.0;
    }
  }

  /// Where in the list the picked yard stands.
  function ClosestIndex(yards: seq<Yard>, from: Pos): (i: nat)
    requires yards != []
    ensures i < |yards| && yards[i] == ClosestOf(yards, from).yard.value
  {
    var init := yards[..|yards| - 1];
    if init == [] || ClosestOf(yards, from) != ClosestOf(init, from) then |yards| - 1
    else ClosestIndex(init, from)
  }

  /// Every yard listed before the one picked is strictly farther: ties go
  /// to the first yard.
  lemma {:induction false} ClosestIsFirst(yards: seq<Yard>, from: Pos)
    requires yards != []
    ensures forall j | 0 <= j < ClosestIndex(yards, from) ::
              MeasureDistance(from, yards[j].pos) as real > ClosestOf(yards, from).dist
  {
    var init := yards[..|yards| - 1];
    if init != [] {
      if ClosestOf(yards, from) == ClosestOf(init, from) {
        ClosestIsFirst(init, from);
        Prefix(yards, ClosestIndex(yards, from));
      } else {
        ClosestIsNearest(init, from);
        ClosestReplaced(yards, from);
      }
    }
  }

  lemma Prefix(yards: seq<Yard>, i: nat)
    requires i < |yards|
    ensures forall j | 0 <= j < i :: yards[j] == yards[..|yards| - 1][j]
  {
  }

  /// When the last yard replaces the pick, it is strictly closer than every
  /// earlier yard.
  lemma ClosestReplaced(yards: seq<Yard>, from: Pos)
    requires |yards| > 1
    requires ClosestOf(yards, from) != ClosestOf(yards[..|yards| - 1], from)
    requires forall y | y in yards[..|yards| - 1] ::
               ClosestOf(yards[..|yards| - 1], from).dist <= MeasureDistance(from, y.pos) as real
    ensures forall j | 0 <= j < |yards| - 1 ::
              MeasureDistance(from, yards[j].pos) as real > ClosestOf(yards, from).dist
  {
    var init := yards[..|yards| - 1];
    var last := yards[|yards| - 1];
    var n := ClosestOf(init, from);
    var d := MeasureDistance(from, last.pos) as real;
    WholeIsNotNoYard(MeasureDistance(from, n.yard.value.pos));
    assert n.dist > d;
    assert ClosestOf(yards, from).dist == d;
    forall j | 0 <= j < |yards| - 1 ensures MeasureDistance(from, yards[j].pos) as real > d {
      assert yards[j] == init[j];
      assert init[j] in init;
    }
  }

  /// One opponent's vote in near_end: +1 for an opponent with under 500
  /// halite, no ships and less halite than the player; -1 for one with over
  /// 2000 halite and more than one ship.
  function Vote(me: Player, o: Player): int {
    (if o.halite < 500 && |o.ships| == 0 && me.halite > o.halite then 1 else 0)
    - (if o.halite > 2000 && |o.ships| > 1 then 1 else 0)
  }

  /// The count near_end forms over the first opponents.
  function EndScore(me: Player, opps: seq<Player>): int {
    if opps == [] then 0 else EndScore(me, opps[..|opps| - 1]) + Vote(me, opps[|opps| - 1])
  }

  /// near_end (mod.py:342-352).
  function NearEnd(b: Snapshot, step: nat): bool {
    EndScore(b.me, b.opponents) >= 2 || step > 385
  }

  /// Each opponent moves the count by at most one, and when every opponent
  /// is out of ships and poorer than the player the count is the number of
  /// opponents.
  lemma {:induction false} EndScoreBounds(me: Player, opps: seq<Player>)
    ensures -|opps| <= EndScore(me, opps) <= |opps|
    ensures (forall i | 0 <= i < |opps| :: opps[i].halite < 500 && opps[i].ships == [] && me.halite > opps[i].halite) ==>
              EndScore(me, opps) == |opps|
  {
    if opps != [] {
      EndScoreBounds(me, opps[..|opps| - 1]);
    }
  }

  /// With fewer than two opponents only the step can end the game early;
  /// with two or more broken opponents the game is near its end at any step.
  lemma NearEndByOpponents(b: Snapshot, step: nat)
    ensures |b.opponents| < 2 ==> (NearEnd(b, step) <==> step > 385)
    ensures (&& |b.opponents| >= 2
             && forall i | 0 <= i < |b.opponents| ::
                  b.opponents[i].halite < 500 && b.opponents[i].ships == [] && b.me.halite > b.opponents[i].halite)
            ==> NearEnd(b, step)
  {
    EndScoreBounds(b.me, b.opponents);
  }

  /// The inputs of one decision: the board, the ship, the step, the ship's
  /// own cell, its closest shipyard, whether the game is near its end, the
  /// survey taken around a cell (the module-level grid), and x ** 1.5 (left
  /// to the caller).
  datatype Ctx = Ctx(b: Snapshot, ship: Ship, step: nat, cur: Cell, nearest: Nearest,
                     nearEnd: bool, survey: Pos -> seq<Entry>, pow15: real -> real)

  /// What the constructor guarantees: the ship's cell, the end-of-game flag
  /// and the closest yard are computed from the board, and every survey key
  /// is at least one move long.
  ghost predicate Consistent(c: Ctx) {
    && c.cur == c.b.cellAt(c.ship.pos)
    && c.nearEnd == NearEnd(c.b, c.step)
    && c.nearest == ClosestOf(c.b.me.yards, c.ship.pos)
    && forall p: Pos :: Moving(c.survey(p))
  }

  /// The survey around the ship itself (self.grid).
  function ShipGrid(c: Ctx): seq<Entry> {
    c.survey(c.ship.pos)
  }

  function Cargo(c: Ctx): nat {
    c.ship.cargo
  }

  // ---------------------------------------------------------------------
  // The rule contributors (mod.py:140-160, 210-331).
  // ---------------------------------------------------------------------

  /// The convert weight of a ship away from every shipyard while the player
  /// has some: CONVERSION * (cargo - threshold) / ((10.99 - distance to the
  /// closest yard)^2 * number of yards), the threshold being 600 plus 500 per
  /// four yards.
  function ConvertWeight(c: Ctx): real
    requires Consistent(c) && c.b.me.yards != []
  {
    var yards := |c.b.me.yards|;
    var threshold := 600 + 500 * (yards / 4);
    var d := 10.99 - c.nearest.dist;
    WholeIsNotNoYard(MeasureDistance(c.ship.pos, c.nearest.yard.value.pos) + 11);
    ConversionHyper(yards) * (Cargo(c) - threshold) as real / (d * d * yards as real)
  }

  /// weight_convert.
  function WeightConvert(c: Ctx, t: Tally): (r: Tally)
    requires Consistent(c) && Full(t.weights)
  {
    var onYard := c.cur.yard.Some?;
    if c.b.me.halite + Cargo(c) >= 500 then
      if c.b.me.yards == [] && !onYard then Tally(t.weights[Convert := 100000000.0], t.eliminated)
      else if !onYard then Tally(t.weights[Convert := ConvertWeight(c)], t.eliminated)
      else Tally(t.weights, t.eliminated + [Convert])
    else Tally(t.weights, t.eliminated + [Convert])
  }

  /// Converting is eliminated exactly when the player's bank and the cargo
  /// together are under 500 or the ship already stands on a shipyard;
  /// otherwise, with no shipyard at all, converting weighs 1e8. Nothing
  /// else changes.
  lemma WeightConvertRule(c: Ctx, t: Tally)
    requires Consistent(c) && Full(t.weights)
    ensures var r := WeightConvert(c, t);
            && (r.eliminated == t.eliminated + [Convert] <==>
                  c.b.me.halite + Cargo(c) < 500 || c.cur.yard.Some?)
            && (r.eliminated != t.eliminated + [Convert] ==> r.eliminated == t.eliminated)
            && (c.b.me.halite + Cargo(c) >= 500 && c.cur.yard.None? && c.b.me.yards == [] ==>
                  r.weights[Convert] == 100000000.0)
            && forall k | k != Convert :: r.weights[k] == t.weights[k]
  {
    assert t.eliminated + [Convert] != t.eliminated by {
      assert |t.eliminated + [Convert]| != |t.eliminated|;
    }
  }

  /// go_to_closest_shipyard: value goes to E or W and to N or S, whichever
  /// point from the ship's cell towards the closest yard, without wrapping.
  function GoToClosest(c: Ctx, w: Weights, value: real): (r: Weights)
    requires Full(w)
    ensures Full(r)
  {
    match c.nearest.yard
    case None => w
    case Some(y) =>
      var here := c.cur.pos;
      var x := if y.pos.x > here.x then w[Go(E) := w[Go(E)] + value]
               else if y.pos.x < here.x then w[Go(W) := w[Go(W)] + value]
               else w;
      if y.pos.y > here.y then x[Go(N) := x[Go(N)] + value]
      else if y.pos.y < here.y then x[Go(S) := x[Go(S)] + value]
      else x
  }

  /// The closest-yard push only ever raises moves that head towards the
  /// yard: greater x is east and greater y is north.
  lemma GoToClosestHeads(c: Ctx, w: Weights, value: real, d: Dir)
    requires Full(w)
    ensures var r := GoToClosest(c, w, value);
            && r[Mine] == w[Mine] && r[Convert] == w[Convert] && r[Unset] == w[Unset]
            && (r[Go(d)] != w[Go(d)] ==>
                  && c.nearest.yard.Some? && value != 0.0
                  && var y := c.nearest.yard.value.pos;
                  var h := c.cur.pos;
                  match d
                  case E => y.x > h.x
                  case W => y.x < h.x
                  case N => y.y > h.y
                  case S => y.y < h.y)
  {
  }

  /// ATTACK_ENEMY_SHIP * (cargo difference + 1) / (distance to the closest
  /// yard + 0.1).
  function AttackValue(c: Ctx, diff: nat): real
    requires Consistent(c)
  {
    AttackHyper(Cargo(c), c.step) * (diff + 1) as real / (c.nearest.dist + 0.1)
  }

  /// attack_enemy_ship.
  function AttackShip(c: Ctx, w: Weights, dir: string, diff: nat): (r: Weights)
    requires Full(w) && Consistent(c)
    ensures Full(r)
  {
    AddAccordingly(w, dir, AttackValue(c, diff))
  }

  /// The direct discouragement of get_away: none for a one-move enemy (that
  /// move is eliminated instead), GET_AWAY * (cargo + 0.1) otherwise.
  function Discouragement(c: Ctx, dir: string): real {
    if |dir| == 1 then 0.0 else GetAwayHyper(Cargo(c)) * (Cargo(c) as real + 0.1)
  }

  /// CLOSEST_SHIPYARD * diff ** 1.5 / len(dir)^2.
  function ShelterPush(c: Ctx, dir: string, diff: nat): real
    requires |dir| > 0
  {
    ClosestYardHyper(c.step) * c.pow15(diff as real) / (|dir| * |dir|) as real
  }

  /// The eliminations get_away adds: for a one-move enemy, that move and
  /// mining (which is always still weighed while the rules run).
  function Flee(elim: seq<Key>, dir: string, w: Weights): seq<Key> {
    if |dir| == 1 then
      var e := Eliminate(elim, dir);
      if Mine in w then e + [Mine] else e
    else elim
  }

  /// get_away: a one-move enemy eliminates that move and mining; a farther
  /// one discourages its direction. Either way the closest shipyard is
  /// encouraged.
  function GetAway(c: Ctx, t: Tally, dir: string, diff: nat): (r: Tally)
    requires Full(t.weights) && |dir| > 0
    ensures Full(r.weights)
  {
    var w := AddAccordingly(t.weights, dir, Discouragement(c, dir));
    Tally(GoToClosest(c, w, ShelterPush(c, dir, diff)), Flee(t.eliminated, dir, t.weights))
  }

  /// DISTRIBUTION * |cargo difference|.
  function SpreadValue(c: Ctx, other: Ship): real {
    DistributionHyper(Cargo(c), c.step) * Abs(Cargo(c) - other.cargo) as real
  }

  /// distribute_ships: an own ship one move away eliminates that move; any
  /// own ship adds DISTRIBUTION * |cargo difference| along its key.
  function Distribute(c: Ctx, t: Tally, dir: string, other: Ship): (r: Tally)
    requires Full(t.weights)
    ensures Full(r.weights)
  {
    var elim := if |dir| == 1 then Eliminate(t.eliminated, dir) else t.eliminated;
    Tally(AddAccordingly(t.weights, dir, SpreadValue(c, other)), elim)
  }

  /// The enemy is a threat when the ship carries more than the enemy plus a
  /// quarter of the halite along the way.
  predicate Threat(c: Ctx, dir: string, cell: Cell, enemy: Ship) {
    Cargo(c) as real > enemy.cargo as real + 0.25 * |dir| as real * cell.halite
  }

  /// deal_enemy_ship.
  function DealEnemy(c: Ctx, t: Tally, dir: string, cell: Cell, enemy: Ship): (r: Tally)
    requires Full(t.weights) && Consistent(c) && |dir| > 0
    ensures Full(r.weights)
  {
    var diff := Abs(enemy.cargo - Cargo(c));
    if Threat(c, dir, cell, enemy) then GetAway(c, t, dir, diff)
    else Tally(AttackShip(c, t.weights, dir, diff), t.eliminated)
  }

  /// For a one-move enemy, deal_enemy_ship takes mining off the table iff
  /// the enemy is a threat: it then flees, eliminating the move and mining;
  /// otherwise it attacks and eliminates nothing.
  lemma DealEnemyChoice(c: Ctx, t: Tally, d: Dir, cell: Cell, enemy: Ship)
    requires Full(t.weights) && Consistent(c) && Mine !in t.eliminated
    ensures var r := DealEnemy(c, t, [Letter(d)], cell, enemy);
            && (Mine in r.eliminated <==> Threat(c, [Letter(d)], cell, enemy))
            && (Threat(c, [Letter(d)], cell, enemy) ==> r.eliminated == t.eliminated + [Go(d), Mine])
            && (!Threat(c, [Letter(d)], cell, enemy) ==> r.eliminated == t.eliminated)
  {
    KeyOfName(Go(d), [Letter(d)]);
    assert Name(Go(d)) == [Letter(d)];
  }

  /// DEPOSIT * cargo.
  function DepositValue(c: Ctx): real
    requires Consistent(c)
  {
    DepositHyper(Cargo(c), c.step, c.nearest.dist, c.nearEnd) * Cargo(c) as real
  }

  /// deposit.
  function Deposit(c: Ctx, w: Weights, dir: string): (r: Weights)
    requires Full(w) && Consistent(c)
    ensures Full(r)
  {
    AddAccordingly(w, dir, DepositValue(c))
  }

  /// The raid condition of attack_enemy_shipyard.
  predicate Raid(c: Ctx, cell: Cell, y: Yard) {
    && |c.b.me.ships| >= 2 && c.b.me.halite > 700 && Cargo(c) < 30
    && MeasureDistance(y.pos, cell.pos) < 5
  }

  /// 1e6 / len(dir)^2.
  function RaidValue(dir: string): real
    requires |dir| > 0
  {
    1000000.0 / (|dir| * |dir|) as real
  }

  /// attack_enemy_shipyard.
  function AttackYard(c: Ctx, t: Tally, dir: string, cell: Cell, y: Yard): (r: Tally)
    requires Full(t.weights) && |dir| > 0
    ensures Full(r.weights)
  {
    if Raid(c, cell, y) then Tally(AddAccordingly(t.weights, dir, RaidValue(dir)), t.eliminated)
    else if |dir| == 1 && Cargo(c) > 100 then Tally(t.weights, Eliminate(t.eliminated, dir))
    else t
  }

  /// The yard a raid targets stands on the surveyed cell, so the distance
  /// the raid condition measures is always 0.
  lemma RaidDistanceZero(c: Ctx, cell: Cell, y: Yard)
    requires cell.yard == Some(y) && y.pos == cell.pos
    ensures MeasureDistance(y.pos, cell.pos) == 0
  {
    MeasureDistanceBounds(y.pos, cell.pos);
  }

  /// x ** n.
  function Pow(x: real, n: nat): real {
    if n == 0 then 1.0 else x * Pow(x, n - 1)
  }

  /// The halite a cell is expected to hold by the time the ship gets there:
  /// its halite times 1.25 ** len(dir).
  function Grown(e: Entry): real {
    e.cell.halite * Pow(1.25, |e.dir|)
  }

  /// DIRECTION_ENCOURAGEMENT * grown halite * ship_affect / 4, where
  /// ship_affect is always 1/200 because the deciding ship is never None.
  function MainPull(c: Ctx, e: Entry): real {
    DirectionHyper(Cargo(c), c.step) * Grown(e) * (1.0 / 200.0) / 4.0
  }

  /// 10 * (halite of the ship's cell - grown halite) / len(dir)^2.
  function MiningTrigger(c: Ctx, e: Entry): real
    requires |e.dir| > 0
  {
    10.0 * (c.cur.halite - Grown(e)) / (|e.dir| * |e.dir|) as real
  }

  /// The ship rules for the ship standing on a surveyed cell.
  function MeetShip(c: Ctx, t: Tally, e: Entry): (r: Tally)
    requires Full(t.weights) && Consistent(c) && |e.dir| > 0
    ensures Full(r.weights)
  {
    match e.cell.ship
    case Some(s) => if s.id in ShipIds(c.b.me) then Distribute(c, t, e.dir, s) else DealEnemy(c, t, e.dir, e.cell, s)
    case None => t
  }

  /// The shipyard rules for the shipyard standing on a surveyed cell.
  function MeetYard(c: Ctx, t: Tally, e: Entry): (r: Tally)
    requires Full(t.weights) && Consistent(c) && |e.dir| > 0
    ensures Full(r.weights)
  {
    match e.cell.yard
    case Some(y) => if y.id in YardIds(c.b.me) then Tally(Deposit(c, t.weights, e.dir), t.eliminated)
                    else AttackYard(c, t, e.dir, e.cell, y)
    case None => t
  }

  /// One pass of the weight_moves loop body for the survey entry (dir,
  /// cell): the ship and shipyard rules, then the halite pull of the cell
  /// and its mining trigger.
  function Visit(c: Ctx, t: Tally, e: Entry): (r: Tally)
    requires Full(t.weights) && Consistent(c) && |e.dir| > 0
    ensures Full(r.weights)
    ensures forall k | k in t.eliminated :: k in r.eliminated
  {
    var t2 := MeetYard(c, MeetShip(c, t, e), e);
    var w3 := AddAccordingly(t2.weights, e.dir, MainPull(c, e));
    Tally(w3[Mine := w3[Mine] + MiningTrigger(c, e)], t2.eliminated)
  }

  /// The moves one survey entry eliminates: a one-move own ship, a one-move
  /// threatening enemy (which also eliminates mining), and a one-move enemy
  /// yard when cargo is over 100 and no raid is on.
  lemma VisitEliminates(c: Ctx, t: Tally, e: Entry, d: Dir)
    requires Full(t.weights) && Consistent(c) && e.dir == [Letter(d)]
    ensures var r := Visit(c, t, e);
            && (e.cell.ship.Some? && e.cell.ship.value.id in ShipIds(c.b.me) ==> Go(d) in r.eliminated)
            && ((e.cell.ship.Some? && e.cell.ship.value.id !in ShipIds(c.b.me) &&
                 Threat(c, e.dir, e.cell, e.cell.ship.value)) ==> Go(d) in r.eliminated && Mine in r.eliminated)
            && ((e.cell.yard.Some? && e.cell.yard.value.id !in YardIds(c.b.me) &&
                 !Raid(c, e.cell, e.cell.yard.value) && Cargo(c) > 100) ==> Go(d) in r.eliminated)
  {
    KeyOfName(Go(d), e.dir);
  }

  /// Everything a survey entry eliminates is its own one-move key or mining.
  lemma VisitEliminatesOnlyItself(c: Ctx, t: Tally, e: Entry)
    requires Full(t.weights) && Consistent(c) && |e.dir| > 0
    ensures var r := Visit(c, t, e);
            forall k | k in r.eliminated && k !in t.eliminated ::
              k == Mine || (|e.dir| == 1 && KeyOf(e.dir) == Some(k))
  {
    var t1 := MeetShip(c, t, e);
    var t2 := MeetYard(c, t1, e);
    MeetShipEliminatesOnlyItself(c, t, e);
    MeetYardEliminatesOnlyItself(c, t1, e);
    assert Visit(c, t, e).eliminated == t2.eliminated;
  }

  /// The ship rules eliminate nothing but the entry's own key and mining.
  lemma MeetShipEliminatesOnlyItself(c: Ctx, t: Tally, e: Entry)
    requires Full(t.weights) && Consistent(c) && |e.dir| > 0
    ensures var r := MeetShip(c, t, e);
            forall k | k in r.eliminated && k !in t.eliminated ::
              k == Mine || (|e.dir| == 1 && KeyOf(e.dir) == Some(k))
  {
  }

  /// The shipyard rules eliminate nothing but the entry's own key.
  lemma MeetYardEliminatesOnlyItself(c: Ctx, t: Tally, e: Entry)
    requires Full(t.weights) && Consistent(c) && |e.dir| > 0
    ensures var r := MeetYard(c, t, e);
            forall k | k in r.eliminated && k !in t.eliminated ::
              |e.dir| == 1 && KeyOf(e.dir) == Some(k)
  {
  }

  /// The weight_moves loop over the first survey entries, in order.
  function Sweep(c: Ctx, t: Tally, es: seq<Entry>): (r: Tally)
    requires Full(t.weights) && Consistent(c)
    requires Moving(es)
    ensures Full(r.weights)
    ensures forall k | k in t.eliminated :: k in r.eliminated
  {
    if es == [] then t
    else Visit(c, Sweep(c, t, es[..|es| - 1]), es[|es| - 1])
  }

  // ---------------------------------------------------------------------
  // Yard defence (mod.py:296-331).
  // ---------------------------------------------------------------------

  /// The sum analyze_shipyard_surroundings forms over the first cells of a
  /// yard's survey: each own ship subtracts 1e4 / (this ship's cargo +
  /// 0.99), each enemy ship adds 1e4 / (its cargo + 0.99).
  function YardPressure(c: Ctx, es: seq<Entry>): real {
    if es == [] then 0.0
    else YardPressure(c, es[..|es| - 1]) + ShipPressure(c, es[|es| - 1].cell)
  }

  function ShipPressure(c: Ctx, cell: Cell): real {
    match cell.ship
    case None => 0.0
    case Some(s) =>
      if s.id in ShipIds(c.b.me) then -10000.0 / (Cargo(c) as real + 0.99)
      else 10000.0 / (s.cargo as real + 0.99)
  }

  /// An empty neighbourhood puts no pressure on a yard, and a yard with
  /// only enemy ships around it is under positive pressure.
  lemma {:induction false} YardPressureSign(c: Ctx, es: seq<Entry>)
    ensures (forall i | 0 <= i < |es| :: es[i].cell.ship.None?) ==> YardPressure(c, es) == 0.0
    ensures (forall i | 0 <= i < |es| :: es[i].cell.ship.None? || es[i].cell.ship.value.id !in ShipIds(c.b.me)) ==>
              YardPressure(c, es) >= 0.0
    ensures (forall i | 0 <= i < |es| :: es[i].cell.ship.None? || es[i].cell.ship.value.id in ShipIds(c.b.me)) ==>
              YardPressure(c, es) <= 0.0
  {
    if es != [] {
      YardPressureSign(c, es[..|es| - 1]);
    }
  }

  /// The key from the ship to a yard: |dx| times E or W, then |dy| times S
  /// or N, where a greater y is written S. Empty when the ship is on the
  /// yard's cell.
  function YardDir(c: Ctx, y: Yard): string {
    var here := c.ship.pos;
    Axis(y.pos.x - here.x, 'E', 'W') + Axis(y.pos.y - here.y, 'S', 'N')
  }

  /// analyze_shipyard_surroundings for one yard whose survey is yardGrid.
  function Defend(c: Ctx, w: Weights, y: Yard, yardGrid: seq<Entry>): (r: Weights)
    requires Full(w)
    ensures Full(r)
  {
    var value := YardPressure(c, yardGrid);
    if value > 0.0 && YardDir(c, y) != [] then AddAccordingly(w, YardDir(c, y), value) else w
  }

  /// The key to a yard has an S exactly when the yard has greater y, an N
  /// exactly when it has smaller y, and is empty exactly on the yard.
  lemma YardDirLetters(c: Ctx, y: Yard)
    ensures 'S' in YardDir(c, y) <==> y.pos.y > c.ship.pos.y
    ensures 'N' in YardDir(c, y) <==> y.pos.y < c.ship.pos.y
    ensures 'E' in YardDir(c, y) <==> y.pos.x > c.ship.pos.x
    ensures 'W' in YardDir(c, y) <==> y.pos.x < c.ship.pos.x
    ensures YardDir(c, y) == [] <==> y.pos == c.ship.pos
  {
    var h := c.ship.pos;
    var dx, dy := y.pos.x - h.x, y.pos.y - h.y;
    AxisLetters(dx, 'E', 'W', 'N', 'S');
    AxisLetters(dy, 'S', 'N', 'E', 'W');
    JoinLetters(Axis(dx, 'E', 'W'), Axis(dy, 'S', 'N'), dx, dy);
  }

  /// The letters of the two axes side by side.
  lemma JoinLetters(xs: string, ys: string, dx: int, dy: int)
    requires ('E' in xs <==> dx > 0) && ('W' in xs <==> dx < 0) && 'N' !in xs && 'S' !in xs
    requires ('S' in ys <==> dy > 0) && ('N' in ys <==> dy < 0) && 'E' !in ys && 'W' !in ys
    requires (xs == [] <==> dx == 0) && (ys == [] <==> dy == 0)
    ensures ('S' in xs + ys <==> dy > 0) && ('N' in xs + ys <==> dy < 0)
    ensures ('E' in xs + ys <==> dx > 0) && ('W' in xs + ys <==> dx < 0)
    ensures xs + ys == [] <==> dx == 0 && dy == 0
  {
    assert |xs + ys| == |xs| + |ys|;
  }

  /// One axis of the walk home: `more` repeated when the offset is
  /// positive, `less` when it is negative, nothing at zero.
  function Axis(offset: int, more: char, less: char): string {
    if offset > 0 then Rep(more, Abs(offset)) else if offset < 0 then Rep(less, Abs(offset)) else []
  }

  lemma AxisLetters(offset: int, more: char, less: char, o1: char, o2: char)
    requires more != less && o1 != o2
    requires o1 != more && o1 != less && o2 != more && o2 != less
    ensures var s := Axis(offset, more, less);
            && (more in s <==> offset > 0)
            && (less in s <==> offset < 0)
            && o1 !in s && o2 !in s
            && (s == [] <==> offset == 0)
  {
    var s := Axis(offset, more, less);
    CountPositive(s, more);
    CountPositive(s, less);
    CountPositive(s, o1);
    CountPositive(s, o2);
    if offset > 0 {
      CountRep(more, Abs(offset), more);
      CountRep(more, Abs(offset), less);
      CountRep(more, Abs(offset), o1);
      CountRep(more, Abs(offset), o2);
    } else if offset < 0 {
      CountRep(less, Abs(offset), more);
      CountRep(less, Abs(offset), less);
      CountRep(less, Abs(offset), o1);
      CountRep(less, Abs(offset), o2);
    }
  }


  /// A yard pulls the ship only when it is under positive pressure and the
  /// ship is not on it; a yard with greater y pulls towards S, a yard with
  /// smaller y towards N.
  lemma DefendPullsTowardsYard(c: Ctx, w: Weights, y: Yard, yardGrid: seq<Entry>)
    requires Full(w)
    ensures Defend(c, w, y, yardGrid) != w ==> YardPressure(c, yardGrid) > 0.0 && y.pos != c.ship.pos
    ensures YardPressure(c, yardGrid) > 0.0 && y.pos.y > c.ship.pos.y ==>
              Defend(c, w, y, yardGrid)[Go(S)] > w[Go(S)] && Defend(c, w, y, yardGrid)[Go(N)] == w[Go(N)]
    ensures YardPressure(c, yardGrid) > 0.0 && y.pos.y < c.ship.pos.y ==>
              Defend(c, w, y, yardGrid)[Go(N)] > w[Go(N)] && Defend(c, w, y, yardGrid)[Go(S)] == w[Go(S)]
  {
    YardDirLetters(c, y);
    var dir := YardDir(c, y);
    var value := YardPressure(c, yardGrid);
    if value > 0.0 && 'S' in dir && 'N' !in dir {
      SharePositive(dir, 'S');
      assert value * Share(dir, 'S') > 0.0;
    }
    if value > 0.0 && 'N' in dir {
      SharePositive(dir, 'N');
      assert value * Share(dir, 'N') > 0.0;
    }
  }

  lemma SharePositive(dir: string, c: char)
    requires c in dir
    ensures Share(dir, c) > 0.0
  {
    CountPositive(dir, c);
  }

  /// shipyard_status: every own yard in order, each surveyed around its cell.
  function ShipyardStatus(c: Ctx, w: Weights, yards: seq<Yard>): (r: Weights)
    requires Full(w)
    ensures Full(r)
  {
    if yards == [] then w
    else
      var y := yards[|yards| - 1];
      Defend(c, ShipyardStatus(c, w, yards[..|yards| - 1]), y, c.survey(y.pos))
  }

  // ---------------------------------------------------------------------
  // weight_moves, apply_elimination and determine (mod.py:98-114, 162-208,
  // 354-367).
  // ---------------------------------------------------------------------

  /// min(220, 12000 // (number of own ships + 1)).
  function Interval(ships: nat): nat {
    if 220 <= 12000 / (ships + 1) then 220 else 12000 / (ships + 1)
  }

  /// The survey entries the loop visits: list(grid.items())[:interval].
  function Visited(c: Ctx): (es: seq<Entry>)
    ensures |es| <= |ShipGrid(c)| && es == ShipGrid(c)[..|es|]
  {
    var n := Interval(|c.b.me.ships|);
    if n <= |ShipGrid(c)| then ShipGrid(c)[..n] else ShipGrid(c)
  }

  /// The visited entries are real moves.
  lemma VisitedMoving(c: Ctx)
    requires Consistent(c)
    ensures Moving(Visited(c))
  {
    assert Moving(ShipGrid(c));
  }

  /// What weight_moves does before its loop: weight_convert, then
  /// shipyard_status over every own yard.
  function Prelude(c: Ctx, t: Tally): (r: Tally)
    requires Consistent(c) && Full(t.weights)
    ensures Full(r.weights)
  {
    var t1 := WeightConvert(c, t);
    Tally(ShipyardStatus(c, t1.weights, c.b.me.yards), t1.eliminated)
  }

  /// The table and elimination list weight_moves leaves, starting from the
  /// constructor's table and ['None'].
  function WeightMoves(c: Ctx): (r: Tally)
    requires Consistent(c)
    ensures Full(r.weights)
  {
    AddCellBonus(c, Sweep(c, Prelude(c, Tally(Initial(), [Unset])), Visited(c)))
  }

  /// The tally with the ship's own cell bonus added to mining.
  function AddCellBonus(c: Ctx, t: Tally): (r: Tally)
    requires Full(t.weights)
    ensures Full(r.weights) && r.eliminated == t.eliminated
    ensures r.weights[Mine] >= t.weights[Mine]
    ensures forall k | k != Mine :: r.weights[k] == t.weights[k]
  {
    Tally(t.weights[Mine := t.weights[Mine] + CellBonus(c)], t.eliminated)
  }

  /// The final mining bonus for the ship's own cell: mining_hyper times the
  /// square of its halite.
  function CellBonus(c: Ctx): (v: real)
    ensures v >= 0.0
  {
    MiningHyper(c.step) * (c.cur.halite * c.cur.halite)
  }

  /// The 'None' placeholder is always on the elimination list.
  lemma UnsetEliminated(c: Ctx)
    requires Consistent(c)
    ensures Unset in WeightMoves(c).eliminated
  {
    var t1 := WeightConvert(c, Tally(Initial(), [Unset]));
    assert Unset in t1.eliminated;
  }

  /// round(): the six move weights rounded by the given rounding; the
  /// 'None' weight is left as it is.
  function RoundAll(w: Weights, round: real -> real): (r: Weights)
    requires Full(w)
    ensures Full(r)
  {
    w[Mine := round(w[Mine])][Go(N) := round(w[Go(N)])][Go(S) := round(w[Go(S)])]
     [Go(E) := round(w[Go(E)])][Go(W) := round(w[Go(W)])][Convert := round(w[Convert])]
  }

  /// apply_elimination: every listed key that is still present is deleted.
  function ApplyElimination(w: Weights, elim: seq<Key>): (r: Weights) {
    map k | k in w && k !in elim :: w[k]
  }

  /// No eliminated key survives, every other key keeps its weight, and
  /// eliminating again changes nothing.
  lemma ApplyEliminationSpec(w: Weights, elim: seq<Key>)
    ensures forall k | k in elim :: k !in ApplyElimination(w, elim)
    ensures forall k | k in w && k !in elim :: k in ApplyElimination(w, elim) && ApplyElimination(w, elim)[k] == w[k]
    ensures forall k | k in ApplyElimination(w, elim) :: k in w
    ensures ApplyElimination(ApplyElimination(w, elim), elim) == ApplyElimination(w, elim)
  {
  }

  /// Eliminating one more key removes just that key.
  lemma ApplyEliminationStep(w: Weights, elim: seq<Key>, m: Key)
    ensures ApplyElimination(w, elim + [m]) == ApplyElimination(w, elim) - {m}
  {
    var l, r := ApplyElimination(w, elim + [m]), ApplyElimination(w, elim) - {m};
    assert l.Keys == r.Keys;
  }

  /// The keys of a table after elimination, in the table's insertion order.
  function Survivors(w: map<Key, real>): (ks: seq<Key>)
    ensures forall k | k in ks :: k in w
  {
    Keep(Order, w)
  }

  function Keep(ks: seq<Key>, w: map<Key, real>): (r: seq<Key>)
    ensures forall k | k in r :: k in w && k in ks
    ensures forall k | k in ks && k in w :: k in r
  {
    if ks == [] then [] else (if ks[0] in w then [ks[0]] else []) + Keep(ks[1..], w)
  }

  /// The head of the stable descending sort of the remaining weights, or
  /// mining when none remain.
  function Choose(w: map<Key, real>): Key {
    match FirstMax(Survivors(w), w)
    case None => Mine
    case Some(k) => k
  }

  /// determine: weigh, round, eliminate, then take the first key of highest
  /// weight.
  function Determine(c: Ctx, round: real -> real): Key
    requires Consistent(c)
  {
    var t := WeightMoves(c);
    Choose(ApplyElimination(RoundAll(t.weights, round), t.eliminated))
  }

  /// The choice is a surviving key of greatest weight that no earlier key in
  /// the order N, E, W, S, mine, convert ties, or mining when every key is
  /// eliminated.
  lemma ChooseSpec(w: map<Key, real>)
    ensures Survivors(w) == [] ==> Choose(w) == Mine
    ensures Survivors(w) != [] ==>
              && Choose(w) in w
              && (forall k | k in w :: w[k] <= w[Choose(w)])
              && exists i | 0 <= i < |Survivors(w)| :: Survivors(w)[i] == Choose(w) &&
                   forall j | 0 <= j < i :: w[Survivors(w)[j]] < w[Choose(w)]
  {
    if Survivors(w) != [] {
      FirstMaxIsFirstMaximum(Survivors(w), w);
      forall k | k in w ensures w[k] <= w[Choose(w)] {
        OrderListsEveryKey(k);
      }
    }
  }

  /// determine never picks the 'None' placeholder nor an eliminated move,
  /// except that it falls back to mining when every move is eliminated.
  lemma DetermineSpec(c: Ctx, round: real -> real)
    requires Consistent(c)
    ensures Determine(c, round) != Unset
    ensures Determine(c, round) in WeightMoves(c).eliminated ==>
              Determine(c, round) == Mine && Survivors(ApplyElimination(RoundAll(WeightMoves(c).weights, round), WeightMoves(c).eliminated)) == []
  {
    var t := WeightMoves(c);
    var w := ApplyElimination(RoundAll(t.weights, round), t.eliminated);
    UnsetEliminated(c);
    ApplyEliminationSpec(RoundAll(t.weights, round), t.eliminated);
    ChooseSpec(w);
  }
}
