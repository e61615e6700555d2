/// ShipyardDecisions of mod.py: every own shipyard whose cell holds no ship
/// is given a tendency to spawn from the ships and yards around it, and the
/// yards whose tendency exceeds 5 spawn, strongest first, while the bank
/// holds at least 500 halite.
module ModYard {
  import opened Wrappers
  import opened Board
  import opened PyDict
  import opened Survey
  import opened Sorting

  // ---------------------------------------------------------------------
  // weight (mod.py:402-436)
  // ---------------------------------------------------------------------

  /// What one surveyed cell adds: an own ship takes 11 / len(dir)^2, an
  /// enemy ship gives 10 / len(dir)^2 and 1000 more when it is one move away
  /// with less than 100 cargo while the bank exceeds 500, and an own yard
  /// gives 10 / len(dir)^2.
  function CellTendency(p: Player, e: Entry): real
    requires |e.dir| > 0
  {
    var sq := (|e.dir| * |e.dir|) as real;
    var shipPart :=
      if e.cell.ship.None? then 0.0
      else if e.cell.ship.value.id in ShipIds(p) then -11.0 / sq
      else 10.0 / sq + (if |e.dir| == 1 && p.halite > 500 && e.cell.ship.value.cargo < 100 then 1000.0 else 0.0);
    var yardPart := if e.cell.yard.Some? && e.cell.yard.value.id in YardIds(p) then 10.0 / sq else 0.0;
    shipPart + yardPart
  }

  /// The sum over the survey, in its order.
  function SurveyScore(p: Player, es: seq<Entry>): real
    requires Moving(es)
  {
    if es == [] then 0.0
    else SurveyScore(p, es[..|es| - 1]) + CellTendency(p, es[|es| - 1])
  }

  /// weight(grid): 100 when the bot has no ship, 100 early in the game with
  /// at least 500 banked, otherwise the survey's sum rounded to two places
  /// (the rounding is a parameter).
  function YardWeight(b: Snapshot, p: Player, step: nat, es: seq<Entry>, round2: real -> real): real
    requires Moving(es)
  {
    if |b.me.ships| == 0 then 100.0
    else if step < 50 && p.halite >= 500 then 100.0
    else round2(SurveyScore(p, es))
  }

  /// The two short cuts of weight, and the survey sum otherwise.
  lemma YardWeightCases(b: Snapshot, p: Player, step: nat, es: seq<Entry>, round2: real -> real)
    requires Moving(es)
    ensures |b.me.ships| == 0 ==> YardWeight(b, p, step, es, round2) == 100.0
    ensures step < 50 && p.halite >= 500 ==> YardWeight(b, p, step, es, round2) == 100.0
    ensures |b.me.ships| > 0 && (step >= 50 || p.halite < 500) ==>
              YardWeight(b, p, step, es, round2) == round2(SurveyScore(p, es))
  {
  }

  /// The sign of one cell's share: an own ship alone pushes against
  /// spawning, an enemy ship or an own yard pulls towards it, an empty cell
  /// gives nothing, and a weak enemy next to the yard outweighs the rest.
  lemma CellTendencySigns(p: Player, e: Entry)
    requires |e.dir| > 0
    ensures e.cell.ship.None? && (e.cell.yard.None? || e.cell.yard.value.id !in YardIds(p)) ==>
              CellTendency(p, e) == 0.0
    ensures (e.cell.ship.Some? && e.cell.ship.value.id in ShipIds(p) &&
             (e.cell.yard.None? || e.cell.yard.value.id !in YardIds(p))) ==> CellTendency(p, e) < 0.0
    ensures e.cell.ship.Some? && e.cell.ship.value.id !in ShipIds(p) ==> CellTendency(p, e) > 0.0
    ensures (e.cell.ship.Some? && e.cell.ship.value.id !in ShipIds(p) &&
             |e.dir| == 1 && p.halite > 500 && e.cell.ship.value.cargo < 100) ==> CellTendency(p, e) > 1000.0
  {
    var sq := (|e.dir| * |e.dir|) as real;
    assert sq >= 1.0;
    assert 10.0 / sq > 0.0;
    assert 11.0 / sq > 0.0;
  }

  /// Without any ship in the survey the sum cannot be negative, and with
  /// only own ships and no own yard it cannot be positive.
  lemma {:induction false} SurveyScoreSigns(p: Player, es: seq<Entry>)
    requires Moving(es)
    ensures (forall i | 0 <= i < |es| :: es[i].cell.ship.None?) ==> SurveyScore(p, es) >= 0.0
    ensures (forall i | 0 <= i < |es| :: (es[i].cell.ship.None? || es[i].cell.ship.value.id in ShipIds(p)) &&
                                         (es[i].cell.yard.None? || es[i].cell.yard.value.id !in YardIds(p)))
            ==> SurveyScore(p, es) <= 0.0
  {
    if es != [] {
      var init := es[..|es| - 1];
      assert Moving(init) by {
        forall i | 0 <= i < |init| ensures |init[i].dir| > 0 {
          assert init[i] == es[i];
        }
      }
      SurveyScoreSigns(p, init);
      CellTendencySigns(p, es[|es| - 1]);
      var sq := (|es[|es| - 1].dir| * |es[|es| - 1].dir|) as real;
      assert 10.0 / sq > 0.0;
      if forall i | 0 <= i < |es| :: es[i].cell.ship.None? {
        assert forall i | 0 <= i < |init| :: init[i].cell.ship.None? by {
          forall i | 0 <= i < |init| ensures init[i].cell.ship.None? {
            assert init[i] == es[i];
          }
        }
      }
      if forall i | 0 <= i < |es| :: (es[i].cell.ship.None? || es[i].cell.ship.value.id in ShipIds(p)) &&
                                     (es[i].cell.yard.None? || es[i].cell.yard.value.id !in YardIds(p)) {
        forall i | 0 <= i < |init|
          ensures (init[i].cell.ship.None? || init[i].cell.ship.value.id in ShipIds(p)) &&
                  (init[i].cell.yard.None? || init[i].cell.yard.value.id !in YardIds(p))
        {
          assert init[i] == es[i];
        }
      }
    }
  }

  // ---------------------------------------------------------------------
  // weight_shipyard_tendencies (mod.py:395-400)
  // ---------------------------------------------------------------------

  /// The tendency table after visiting the yards in order: a yard whose
  /// cell holds no ship gets its weight under its id.
  function Tendencies(b: Snapshot, p: Player, step: nat, survey: Pos -> seq<Entry>, round2: real -> real,
                      d: Dict<Id, real>, yards: seq<Yard>): (r: Dict<Id, real>)
    requires Valid(d) && forall q :: Moving(survey(q))
    ensures Valid(r)
  {
    if yards == [] then d
    else
      var y := yards[|yards| - 1];
      var r := Tendencies(b, p, step, survey, round2, d, yards[..|yards| - 1]);
      if b.cellAt(y.pos).ship.None? then Put(r, y.id, YardWeight(b, p, step, survey(y.pos), round2)) else r
  }

  /// Starting from an empty table, an id has a tendency exactly when it is
  /// the id of a listed yard whose cell holds no ship, and the tendency is
  /// the weight of the last such yard.
  lemma {:induction false} TendenciesOfFreeYards(b: Snapshot, p: Player, step: nat, survey: Pos -> seq<Entry>,
                                                 round2: real -> real, yards: seq<Yard>, id: Id)
    requires forall q :: Moving(survey(q))
    ensures id in Tendencies(b, p, step, survey, round2, Empty(), yards).vals <==>
            exists y | y in yards :: y.id == id && b.cellAt(y.pos).ship.None?
    ensures id in Tendencies(b, p, step, survey, round2, Empty(), yards).vals ==>
            exists i | 0 <= i < |yards| :: yards[i].id == id && b.cellAt(yards[i].pos).ship.None? &&
              Tendencies(b, p, step, survey, round2, Empty(), yards).vals[id] ==
                YardWeight(b, p, step, survey(yards[i].pos), round2)
  {
    if yards != [] {
      var init := yards[..|yards| - 1];
      var y := yards[|yards| - 1];
      TendenciesOfFreeYards(b, p, step, survey, round2, init, id);
      var r := Tendencies(b, p, step, survey, round2, Empty(), init);
      if id in Tendencies(b, p, step, survey, round2, Empty(), yards).vals {
        if y.id == id && b.cellAt(y.pos).ship.None? {
          assert yards[|yards| - 1] == y;
        } else {
          var i :| 0 <= i < |init| && init[i].id == id && b.cellAt(init[i].pos).ship.None? &&
                   r.vals[id] == YardWeight(b, p, step, survey(init[i].pos), round2);
          assert yards[i] == init[i];
        }
      }
      if exists z | z in yards :: z.id == id && b.cellAt(z.pos).ship.None? {
        var z :| z in yards && z.id == id && b.cellAt(z.pos).ship.None?;
        if z != y || !b.cellAt(y.pos).ship.None? {
          assert z in init;
        }
      }
    }
  }

  // ---------------------------------------------------------------------
  // determine (mod.py:384-393)
  // ---------------------------------------------------------------------

  function Tendency(item: (Id, real)): real {
    item.1
  }

  /// The ids the determine loop collects from the sorted items: those whose
  /// tendency exceeds 5, while the bank holds at least 500.
  function Chosen(items: seq<(Id, real)>, halite: int): seq<Id> {
    if items == [] then []
    else
      var last := items[|items| - 1];
      Chosen(items[..|items| - 1], halite) + (if last.1 > 5.0 && halite >= 500 then [last.0] else [])
  }

  /// Nothing is chosen below 500 halite; every chosen id comes from an
  /// item whose tendency exceeds 5, and the chosen ids follow the items'
  /// order.
  lemma {:induction false} ChosenFrom(items: seq<(Id, real)>, halite: int)
    ensures halite < 500 ==> Chosen(items, halite) == []
    ensures |Chosen(items, halite)| <= |items|
    ensures forall i | 0 <= i < |Chosen(items, halite)| ::
              exists k | 0 <= k < |items| :: items[k].0 == Chosen(items, halite)[i] && items[k].1 > 5.0
  {
    if items != [] {
      var init := items[..|items| - 1];
      ChosenFrom(init, halite);
      var c := Chosen(items, halite);
      forall i | 0 <= i < |c|
        ensures exists k | 0 <= k < |items| :: items[k].0 == c[i] && items[k].1 > 5.0
      {
        if i < |Chosen(init, halite)| {
          var k :| 0 <= k < |init| && init[k].0 == Chosen(init, halite)[i] && init[k].1 > 5.0;
          assert items[k] == init[k];
        } else {
          assert items[|items| - 1].0 == c[i];
        }
      }
    }
  }

  /// With at least 500 halite, every item whose tendency exceeds 5 has its
  /// id chosen.
  lemma {:induction false} ChosenHas(items: seq<(Id, real)>, halite: int, q: (Id, real))
    requires halite >= 500 && q in items && q.1 > 5.0
    ensures q.0 in Chosen(items, halite)
  {
    var init := items[..|items| - 1];
    if q != items[|items| - 1] {
      assert items == init + [items[|items| - 1]];
      ChosenHas(init, halite, q);
    }
  }

  /// From items in descending tendency order, in which each id carries the
  /// tendency tend gives it, the chosen ids come out in descending tendency
  /// order too.
  lemma {:induction false} ChosenDescending(items: seq<(Id, real)>, halite: int, tend: map<Id, real>)
    requires Descending(items, Tendency)
    requires forall q | q in items :: q.0 in tend && tend[q.0] == q.1
    ensures forall c | c in Chosen(items, halite) :: c in tend
    ensures forall i, j | 0 <= i < j < |Chosen(items, halite)| ::
              tend[Chosen(items, halite)[i]] >= tend[Chosen(items, halite)[j]]
  {
    if items != [] {
      var init := items[..|items| - 1];
      var last := items[|items| - 1];
      assert Descending(init, Tendency);
      ChosenDescending(init, halite, tend);
      ChosenFrom(init, halite);
      var c0 := Chosen(init, halite);
      forall i | 0 <= i < |c0| ensures tend[c0[i]] >= last.1 {
        var k :| 0 <= k < |init| && init[k].0 == c0[i] && init[k].1 > 5.0;
        assert items[k] == init[k];
        assert Tendency(items[k]) >= Tendency(items[|items| - 1]);
      }
      assert last in items;
    }
  }

  /// The order determine walks the tendencies in: sorted by tendency,
  /// highest first, equal tendencies in table order.
  function Ranked(d: Dict<Id, real>): seq<(Id, real)>
    requires Valid(d)
  {
    SortDesc(Items(d), Tendency)
  }

  /// determine's result for a given tendency table: exactly the ids above
  /// 5, highest tendency first, none below 500 halite.
  lemma RankedChoice(d: Dict<Id, real>, halite: int)
    requires Valid(d)
    ensures halite < 500 ==> Chosen(Ranked(d), halite) == []
    ensures forall c | c in Chosen(Ranked(d), halite) :: c in d.vals && d.vals[c] > 5.0
    ensures halite >= 500 ==> forall c | c in d.vals && d.vals[c] > 5.0 :: c in Chosen(Ranked(d), halite)
    ensures forall i, j | 0 <= i < j < |Chosen(Ranked(d), halite)| ::
              d.vals[Chosen(Ranked(d), halite)[i]] >= d.vals[Chosen(Ranked(d), halite)[j]]
  {
    var items := Ranked(d);
    SortDescSorted(Items(d), Tendency);
    SortDescPermutes(Items(d), Tendency);
    forall q | q in items ensures q.0 in d.vals && d.vals[q.0] == q.1 {
      assert q in multiset(items);
      assert q in multiset(Items(d));
    }
    ChosenFrom(items, halite);
    ChosenDescending(items, halite, d.vals);
    forall c | c in Chosen(items, halite) ensures c in d.vals && d.vals[c] > 5.0 {
      var i :| 0 <= i < |Chosen(items, halite)| && Chosen(items, halite)[i] == c;
      var k :| 0 <= k < |items| && items[k].0 == c && items[k].1 > 5.0;
      assert items[k] in items;
    }
    if halite >= 500 {
      forall c | c in d.vals && d.vals[c] > 5.0 ensures c in Chosen(items, halite) {
        ItemsHas(d, c);
        assert (c, d.vals[c]) in multiset(Items(d));
        ChosenHas(items, halite, (c, d.vals[c]));
      }
    }
  }

  /// The yards ShipyardDecisions(b, p, step).determine() names.
  function Spawns(b: Snapshot, p: Player, step: nat, survey: Pos -> seq<Entry>, round2: real -> real): seq<Id>
    requires forall q :: Moving(survey(q))
  {
    Chosen(Ranked(Tendencies(b, p, step, survey, round2, Empty(), p.yards)), p.halite)
  }

  /// What determine promises: no spawn below 500 halite; every spawning yard
  /// is one of the player's yards, its cell holds no ship and its tendency
  /// exceeds 5; with 500 halite every such yard (whose id no other listed
  /// yard shares) spawns; the yards come strongest first.
  lemma SpawnsSpec(b: Snapshot, p: Player, step: nat, survey: Pos -> seq<Entry>, round2: real -> real)
    requires forall q :: Moving(survey(q))
    ensures p.halite < 500 ==> Spawns(b, p, step, survey, round2) == []
    ensures forall c | c in Spawns(b, p, step, survey, round2) ::
              exists i | 0 <= i < |p.yards| :: p.yards[i].id == c && b.cellAt(p.yards[i].pos).ship.None? &&
                YardWeight(b, p, step, survey(p.yards[i].pos), round2) > 5.0
    ensures p.halite >= 500 ==>
              forall i | 0 <= i < |p.yards| && b.cellAt(p.yards[i].pos).ship.None? &&
                         YardWeight(b, p, step, survey(p.yards[i].pos), round2) > 5.0 &&
                         (forall j | 0 <= j < |p.yards| :: p.yards[j].id == p.yards[i].id ==> j == i) ::
                p.yards[i].id in Spawns(b, p, step, survey, round2)
    ensures forall i, j | 0 <= i < j < |Spawns(b, p, step, survey, round2)| ::
              var d := Tendencies(b, p, step, survey, round2, Empty(), p.yards);
              Spawns(b, p, step, survey, round2)[i] in d.vals && Spawns(b, p, step, survey, round2)[j] in d.vals &&
              d.vals[Spawns(b, p, step, survey, round2)[i]] >= d.vals[Spawns(b, p, step, survey, round2)[j]]
  {
    var d := Tendencies(b, p, step, survey, round2, Empty(), p.yards);
    RankedChoice(d, p.halite);
    assert Spawns(b, p, step, survey, round2) == Chosen(Ranked(d), p.halite);
    forall c | c in Spawns(b, p, step, survey, round2)
      ensures exists i | 0 <= i < |p.yards| :: p.yards[i].id == c && b.cellAt(p.yards[i].pos).ship.None? &&
                YardWeight(b, p, step, survey(p.yards[i].pos), round2) > 5.0
    {
      TendenciesOfFreeYards(b, p, step, survey, round2, p.yards, c);
    }
    if p.halite >= 500 {
      forall i | 0 <= i < |p.yards| && b.cellAt(p.yards[i].pos).ship.None? &&
                 YardWeight(b, p, step, survey(p.yards[i].pos), round2) > 5.0 &&
                 (forall j | 0 <= j < |p.yards| :: p.yards[j].id == p.yards[i].id ==> j == i)
        ensures p.yards[i].id in Spawns(b, p, step, survey, round2)
      {
        var id := p.yards[i].id;
        assert p.yards[i] in p.yards;
        TendenciesOfFreeYards(b, p, step, survey, round2, p.yards, id);
      }
    }
  }

  // ---------------------------------------------------------------------
  // The ShipyardDecisions object (mod.py:369-436)
  // ---------------------------------------------------------------------

  class ShipyardDecisions {
    const b: Snapshot
    const player: Player
    const playerHalite: int
    const step: nat
    const yards: seq<Yard>
    /// grid, applied to a yard's cell.
    const survey: Pos -> seq<Entry>
    /// round(., 2).
    const round2: real -> real
    var tendencies: Dict<Id, real>

    constructor (b: Snapshot, player: Player, step: nat, round2: real -> real)
      ensures this.b == b && this.player == player && this.step == step && this.round2 == round2
      ensures playerHalite == player.halite && yards == player.yards && survey == Surveyor(b)
      ensures tendencies == Empty()
    {
      this.b := b;
      this.player := player;
      playerHalite := player.halite;
      this.step := step;
      yards := player.yards;
      survey := Surveyor(b);
      this.round2 := round2;
      tendencies := Empty();
    }

    /// weight (mod.py:402-436).
    method Weight(es: seq<Entry>) returns (w: real)
      requires Moving(es) && playerHalite == player.halite
      ensures w == YardWeight(b, player, step, es, round2)
    {
      if |b.me.ships| == 0 {
        return 100.0;
      }
      if step < 50 && playerHalite >= 500 {
        return 100.0;
      }
      var value := 0.0;
      for i := 0 to |es|
        invariant value == SurveyScore(player, es[..i])
      {
        value := value + CellTendency(player, es[i]);
        assert es[..i + 1][..i] == es[..i];
      }
      assert es[..|es|] == es;
      w := round2(value);
    }

    /// weight_shipyard_tendencies (mod.py:395-400).
    method WeightShipyardTendencies()
      requires Valid(tendencies) && survey == Surveyor(b) && playerHalite == player.halite
      modifies this
      ensures tendencies == Tendencies(b, player, step, survey, round2, old(tendencies), yards)
    {
      for i := 0 to |yards|
        invariant Valid(tendencies)
        invariant tendencies == Tendencies(b, player, step, survey, round2, old(tendencies), yards[..i])
      {
        var y := yards[i];
        if b.cellAt(y.pos).ship.None? {
          var weight := Weight(survey(y.pos));
          tendencies := Put(tendencies, y.id, weight);
        }
        assert yards[..i + 1][..i] == yards[..i];
      }
      assert yards[..|yards|] == yards;
    }

    /// determine (mod.py:384-393), run on a freshly built object.
    method Determine() returns (ids: seq<Id>)
      requires tendencies == Empty() && survey == Surveyor(b) && playerHalite == player.halite
      requires yards == player.yards
      modifies this
      ensures tendencies == Tendencies(b, player, step, survey, round2, Empty(), yards)
      ensures ids == Spawns(b, player, step, survey, round2)
    {
      WeightShipyardTendencies();
      var items := Ranked(tendencies);
      ids := [];
      for i := 0 to |items|
        invariant ids == Chosen(items[..i], playerHalite)
      {
        if items[i].1 > 5.0 && playerHalite >= 500 {
          ids := ids + [items[i].0];
        }
        assert items[..i + 1][..i] == items[..i];
      }
      assert items[..|items|] == items;
    }
  }
}
