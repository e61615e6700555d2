/// DecisionShip of mod.py as an object: it holds the weight table, the
/// elimination list and the entry being analysed, and its methods update
/// them one rule at a time. Each method is proved to leave exactly the state
/// the matching function of ShipRules describes.
module ShipDecision {
  import opened Wrappers
  import opened Board
  import opened Distance
  import opened Survey
  import opened Moves
  import opened ShipRules

  /// closest_shipyard (mod.py:333-340).
  method ClosestShipyard(yards: seq<Yard>, from: Pos) returns (r: Nearest)
    ensures r == ClosestOf(yards, from)
  {
    var closest: Option<Yard>, diff := None, NoYard;
    for i := 0 to |yards|
      invariant Nearest(closest, diff) == ClosestOf(yards[..i], from)
    {
      var distance := MeasureDistance(from, yards[i].pos) as real;
      if diff > distance || diff == NoYard {
        closest, diff := Some(yards[i]), distance;
      }
      assert yards[..i + 1][..i] == yards[..i];
    }
    assert yards[..|yards|] == yards;
    r := Nearest(closest, diff);
  }

  /// near_end (mod.py:342-352).
  method ComputeNearEnd(b: Snapshot, step: nat) returns (r: bool)
    ensures r == NearEnd(b, step)
  {
    var count := 0;
    for i := 0 to |b.opponents|
      invariant count == EndScore(b.me, b.opponents[..i])
    {
      var opp := b.opponents[i];
      if opp.halite < 500 && |opp.ships| == 0 && b.me.halite > opp.halite {
        count := count + 1;
      }
      if opp.halite > 2000 && |opp.ships| > 1 {
        count := count - 1;
      }
      assert b.opponents[..i + 1][..i] == b.opponents[..i];
    }
    assert b.opponents[..|b.opponents|] == b.opponents;
    r := count >= 2 || step > 385;
  }

  /// The key current['dir'] holds after shipyard_status, starting from dir:
  /// the key to the last yard that pulled the ship, if any did.
  function PullDir(c: Ctx, yards: seq<Yard>, dir: string): string {
    if yards == [] then dir
    else
      var y := yards[|yards| - 1];
      if YardPressure(c, c.survey(y.pos)) > 0.0 && YardDir(c, y) != [] then YardDir(c, y)
      else PullDir(c, yards[..|yards| - 1], dir)
  }

  /// The pressure sum of analyze_shipyard_surroundings (mod.py:306-313).
  method Pressure(c: Ctx, yardGrid: seq<Entry>) returns (value: real)
    ensures value == YardPressure(c, yardGrid)
  {
    value := 0.0;
    for i := 0 to |yardGrid|
      invariant value == YardPressure(c, yardGrid[..i])
    {
      var cell := yardGrid[i].cell;
      if cell.ship.Some? {
        if cell.ship.value.id in ShipIds(c.b.me) {
          value := value + -10000.0 / (Cargo(c) as real + 0.99);
        } else {
          value := value + 10000.0 / (cell.ship.value.cargo as real + 0.99);
        }
      }
      assert yardGrid[..i + 1][..i] == yardGrid[..i];
    }
    assert yardGrid[..|yardGrid|] == yardGrid;
  }

  /// The key analyze_shipyard_surroundings builds from the ship to a yard
  /// (mod.py:318-327).
  method KeyToYard(here: Pos, yard: Pos) returns (dir: string)
    ensures dir == Axis(yard.x - here.x, 'E', 'W') + Axis(yard.y - here.y, 'S', 'N')
  {
    var across: string := "";
    if yard.x > here.x {
      across := Rep('E', Abs(yard.x - here.x));
    } else if yard.x < here.x {
      across := Rep('W', Abs(yard.x - here.x));
    }
    var down: string := "";
    if yard.y > here.y {
      down := Rep('S', Abs(yard.y - here.y));
    } else if yard.y < here.y {
      down := Rep('N', Abs(yard.y - here.y));
    }
    dir := across + down;
  }

  class DecisionShip {
    /// What the decision sees; fixed by the constructor.
    const ctx: Ctx
    var weights: Weights
    var eliminated: seq<Key>
    /// current['dir'] and current['cell']; the cell is absent until the
    /// first survey entry is analysed.
    var currentDir: string
    var currentCell: Option<Cell>

    function State(): Tally
      reads this
    {
      Tally(weights, eliminated)
    }

    constructor (b: Snapshot, shipId: Id, step: nat, pow15: real -> real)
      requires ShipById(b, shipId).Some?
      ensures ctx.b == b && ctx.ship == ShipById(b, shipId).value && ctx.step == step
      ensures ctx.pow15 == pow15 && ctx.survey == Surveyor(b)
      ensures Consistent(ctx)
      ensures weights == Initial() && eliminated == [Unset]
      ensures currentDir == [] && currentCell == None
    {
      var ship := ShipById(b, shipId).value;
      var nearEnd := ComputeNearEnd(b, step);
      var nearest := ClosestShipyard(b.me.yards, ship.pos);
      ctx := Ctx(b, ship, step, b.cellAt(ship.pos), nearest, nearEnd, Surveyor(b), pow15);
      weights := Initial();
      eliminated := [Unset];
      currentDir := [];
      currentCell := None;
    }

    /// add_accordingly (mod.py:116-138).
    method AddAccordingly(value: real)
      requires Full(weights)
      modifies this
      ensures weights == ShipRules.AddAccordingly(old(weights), currentDir, value)
      ensures eliminated == old(eliminated) && currentDir == old(currentDir) && currentCell == old(currentCell)
    {
      weights := ShipRules.AddAccordingly(weights, currentDir, value);
    }

    /// Appends current['dir'] to the elimination list.
    method EliminateCurrent()
      modifies this
      ensures eliminated == Eliminate(old(eliminated), currentDir)
      ensures weights == old(weights) && currentDir == old(currentDir) && currentCell == old(currentCell)
    {
      match KeyOf(currentDir)
      case Some(k) => eliminated := eliminated + [k];
      case None =>
    }

    /// weight_convert (mod.py:140-160).
    method WeightConvert()
      requires Consistent(ctx) && Full(weights)
      modifies this
      ensures currentDir == old(currentDir) && currentCell == old(currentCell)
      ensures State() == ShipRules.WeightConvert(ctx, old(State()))
    {
      var noShipyards := |ctx.b.me.yards| == 0;
      var onShipyard := ctx.cur.yard.Some?;
      if ctx.b.me.halite + Cargo(ctx) >= 500 {
        if noShipyards && !onShipyard {
          weights := weights[Convert := 100000000.0];
        } else if !onShipyard {
          weights := weights[Convert := ConvertWeight(ctx)];
        } else {
          eliminated := eliminated + [Convert];
        }
      } else {
        eliminated := eliminated + [Convert];
      }
    }

    /// go_to_closest_shipyard (mod.py:245-263).
    method GoToClosest(value: real)
      requires Full(weights)
      modifies this
      ensures eliminated == old(eliminated) && currentDir == old(currentDir) && currentCell == old(currentCell)
      ensures weights == ShipRules.GoToClosest(ctx, old(weights), value)
    {
      if ctx.nearest.yard.Some? {
        var target := ctx.nearest.yard.value.pos;
        var w := weights;
        if target.x > ctx.cur.pos.x {
          w := w[Go(E) := w[Go(E)] + value];
        } else if target.x < ctx.cur.pos.x {
          w := w[Go(W) := w[Go(W)] + value];
        }
        if target.y > ctx.cur.pos.y {
          w := w[Go(N) := w[Go(N)] + value];
        } else if target.y < ctx.cur.pos.y {
          w := w[Go(S) := w[Go(S)] + value];
        }
        weights := w;
      }
    }

    /// attack_enemy_ship (mod.py:265-268).
    method AttackShip(diff: nat)
      requires Consistent(ctx) && Full(weights)
      modifies this
      ensures eliminated == old(eliminated) && currentDir == old(currentDir) && currentCell == old(currentCell)
      ensures weights == ShipRules.AttackShip(ctx, old(weights), currentDir, diff)
    {
      AddAccordingly(AttackValue(ctx, diff));
    }

    /// get_away (mod.py:227-243).
    method GetAway(diff: nat)
      requires Full(weights) && |currentDir| > 0
      modifies this
      ensures currentDir == old(currentDir) && currentCell == old(currentCell)
      ensures State() == ShipRules.GetAway(ctx, old(State()), currentDir, diff)
    {
      if |currentDir| == 1 {
        EliminateCurrent();
        if Mine in weights {
          eliminated := eliminated + [Mine];
        }
      }
      AddAccordingly(Discouragement(ctx, currentDir));
      GoToClosest(ShelterPush(ctx, currentDir, diff));
    }

    /// distribute_ships (mod.py:210-217).
    method Distribute(other: Ship)
      requires Full(weights)
      modifies this
      ensures currentDir == old(currentDir) && currentCell == old(currentCell)
      ensures State() == ShipRules.Distribute(ctx, old(State()), currentDir, other)
    {
      if |currentDir| == 1 {
        EliminateCurrent();
      }
      AddAccordingly(SpreadValue(ctx, other));
    }

    /// deal_enemy_ship (mod.py:219-225).
    method DealEnemy(enemy: Ship)
      requires Consistent(ctx) && Full(weights) && |currentDir| > 0 && currentCell.Some?
      modifies this
      ensures currentDir == old(currentDir) && currentCell == old(currentCell)
      ensures State() == ShipRules.DealEnemy(ctx, old(State()), currentDir, currentCell.value, enemy)
    {
      if Threat(ctx, currentDir, currentCell.value, enemy) {
        GetAway(Abs(enemy.cargo - Cargo(ctx)));
      } else {
        AttackShip(Abs(enemy.cargo - Cargo(ctx)));
      }
    }

    /// deposit (mod.py:282-285).
    method Deposit()
      requires Consistent(ctx) && Full(weights)
      modifies this
      ensures eliminated == old(eliminated) && currentDir == old(currentDir) && currentCell == old(currentCell)
      ensures weights == ShipRules.Deposit(ctx, old(weights), currentDir)
    {
      AddAccordingly(DepositValue(ctx));
    }

    /// attack_enemy_shipyard (mod.py:287-294).
    method AttackYard(y: Yard)
      requires Full(weights) && |currentDir| > 0 && currentCell.Some?
      modifies this
      ensures currentDir == old(currentDir) && currentCell == old(currentCell)
      ensures State() == ShipRules.AttackYard(ctx, old(State()), currentDir, currentCell.value, y)
    {
      if Raid(ctx, currentCell.value, y) {
        AddAccordingly(RaidValue(currentDir));
      } else if |currentDir| == 1 && Cargo(ctx) > 100 {
        EliminateCurrent();
      }
    }

    /// analyze_shipyard_surroundings (mod.py:302-331).
    method Analyze(y: Yard)
      requires Full(weights)
      modifies this
      ensures eliminated == old(eliminated) && currentCell == old(currentCell)
      ensures currentDir == PullDir(ctx, [y], old(currentDir))
      ensures weights == Defend(ctx, old(weights), y, ctx.survey(y.pos))
    {
      var value := Pressure(ctx, ctx.survey(y.pos));
      if value > 0.0 {
        var dir := KeyToYard(ctx.ship.pos, y.pos);
        assert dir == YardDir(ctx, y);
        if dir != "" {
          currentDir := dir;
          AddAccordingly(value);
        }
      }
      assert [y][..0] == [];
    }

    /// shipyard_status (mod.py:296-300).
    method ShipyardStatus()
      requires Full(weights)
      modifies this
      ensures weights == ShipRules.ShipyardStatus(ctx, old(weights), ctx.b.me.yards)
      ensures currentDir == PullDir(ctx, ctx.b.me.yards, old(currentDir))
      ensures eliminated == old(eliminated) && currentCell == old(currentCell)
    {
      var yards := ctx.b.me.yards;
      for i := 0 to |yards|
        invariant Full(weights)
        invariant weights == ShipRules.ShipyardStatus(ctx, old(weights), yards[..i])
        invariant currentDir == PullDir(ctx, yards[..i], old(currentDir))
        invariant eliminated == old(eliminated) && currentCell == old(currentCell)
      {
        Analyze(yards[i]);
        assert yards[..i + 1][..i] == yards[..i];
      }
      assert yards[..|yards|] == yards;
    }

    /// The ship rules of one pass (mod.py:183-189): a ship on the surveyed
    /// cell is either spread from or dealt with.
    method MeetShipOn(e: Entry)
      requires Consistent(ctx) && Full(weights) && |e.dir| > 0
      requires currentDir == e.dir && currentCell == Some(e.cell)
      modifies this
      ensures currentDir == old(currentDir) && currentCell == old(currentCell)
      ensures State() == MeetShip(ctx, old(State()), e)
    {
      var cell := e.cell;
      if cell.ship.Some? {
        if cell.ship.value.id in ShipIds(ctx.b.me) {
          Distribute(cell.ship.value);
        } else {
          DealEnemy(cell.ship.value);
        }
      }
    }

    /// The shipyard rules of one pass (mod.py:190-195): an own yard is a
    /// place to deposit, an enemy yard a target.
    method MeetYardOn(e: Entry)
      requires Consistent(ctx) && Full(weights) && |e.dir| > 0
      requires currentDir == e.dir && currentCell == Some(e.cell)
      modifies this
      ensures currentDir == old(currentDir) && currentCell == old(currentCell)
      ensures State() == MeetYard(ctx, old(State()), e)
    {
      var cell := e.cell;
      if cell.yard.Some? {
        if cell.yard.value.id in YardIds(ctx.b.me) {
          Deposit();
        } else {
          AttackYard(cell.yard.value);
        }
      }
    }

    /// One pass of the weight_moves loop (mod.py:176-204).
    method Visit(e: Entry)
      requires Consistent(ctx) && Full(weights) && |e.dir| > 0
      modifies this
      ensures currentDir == e.dir && currentCell == Some(e.cell)
      ensures State() == ShipRules.Visit(ctx, old(State()), e)
    {
      currentDir, currentCell := e.dir, Some(e.cell);
      MeetShipOn(e);
      MeetYardOn(e);
      AddAccordingly(MainPull(ctx, e));
      weights := weights[Mine := weights[Mine] + MiningTrigger(ctx, e)];
    }

    /// The weight_moves loop over the surveyed entries (mod.py:176-204).
    method SweepEntries(entries: seq<Entry>)
      requires Consistent(ctx) && Full(weights) && Moving(entries)
      modifies this
      ensures State() == Sweep(ctx, old(State()), entries)
      ensures entries != [] ==> currentDir == entries[|entries| - 1].dir &&
                                currentCell == Some(entries[|entries| - 1].cell)
      ensures entries == [] ==> currentDir == old(currentDir) && currentCell == old(currentCell)
    {
      for i := 0 to |entries|
        invariant Full(weights)
        invariant State() == Sweep(ctx, old(State()), entries[..i])
        invariant i == 0 ==> currentDir == old(currentDir) && currentCell == old(currentCell)
        invariant i > 0 ==> currentDir == entries[i - 1].dir && currentCell == Some(entries[i - 1].cell)
      {
        Visit(entries[i]);
        assert entries[..i + 1][..i] == entries[..i];
      }
      assert entries[..|entries|] == entries;
    }

    /// The start of weight_moves (mod.py:165-169).
    method Prelude()
      requires Consistent(ctx) && Full(weights)
      modifies this
      ensures State() == ShipRules.Prelude(ctx, old(State()))
      ensures currentDir == PullDir(ctx, ctx.b.me.yards, old(currentDir)) && currentCell == old(currentCell)
    {
      WeightConvert();
      ghost var t1 := State();
      ShipyardStatus();
      assert State() == Tally(ShipRules.ShipyardStatus(ctx, t1.weights, ctx.b.me.yards), t1.eliminated);
    }

    /// weight_moves (mod.py:162-208), run on a freshly built decision.
    method WeightMoves()
      requires Consistent(ctx) && State() == Tally(Initial(), [Unset])
      modifies this
      ensures State() == ShipRules.WeightMoves(ctx)
      ensures Visited(ctx) != [] ==> currentDir == Visited(ctx)[|Visited(ctx)| - 1].dir &&
                                     currentCell == Some(Visited(ctx)[|Visited(ctx)| - 1].cell)
      ensures Visited(ctx) == [] ==> currentDir == PullDir(ctx, ctx.b.me.yards, old(currentDir)) &&
                                     currentCell == old(currentCell)
    {
      Prelude();
      VisitedMoving(ctx);
      SweepEntries(Visited(ctx));
      CellBonus();
    }

    /// The final mining bonus of weight_moves (mod.py:207).
    method CellBonus()
      requires Full(weights)
      modifies this
      ensures State() == AddCellBonus(ctx, old(State()))
      ensures currentDir == old(currentDir) && currentCell == old(currentCell)
    {
      weights := weights[Mine := weights[Mine] + ShipRules.CellBonus(ctx)];
    }

    /// round (mod.py:360-367).
    method Round(round: real -> real)
      requires Full(weights)
      modifies this
      ensures weights == RoundAll(old(weights), round)
      ensures eliminated == old(eliminated) && currentDir == old(currentDir) && currentCell == old(currentCell)
    {
      weights := weights[Mine := round(weights[Mine])];
      weights := weights[Go(N) := round(weights[Go(N)])];
      weights := weights[Go(S) := round(weights[Go(S)])];
      weights := weights[Go(E) := round(weights[Go(E)])];
      weights := weights[Go(W) := round(weights[Go(W)])];
      weights := weights[Convert := round(weights[Convert])];
    }

    /// apply_elimination (mod.py:354-358).
    method ApplyElimination()
      modifies this
      ensures eliminated == old(eliminated) && currentDir == old(currentDir) && currentCell == old(currentCell)
      ensures weights == ShipRules.ApplyElimination(old(weights), eliminated)
    {
      for i := 0 to |eliminated|
        invariant eliminated == old(eliminated) && currentDir == old(currentDir) && currentCell == old(currentCell)
        invariant weights == ShipRules.ApplyElimination(old(weights), eliminated[..i])
      {
        var move := eliminated[i];
        if move in weights {
          weights := weights - {move};
        }
        ApplyEliminationStep(old(weights), eliminated[..i], move);
        assert eliminated[..i + 1] == eliminated[..i] + [move];
      }
      assert eliminated[..|eliminated|] == eliminated;
    }

    /// determine (mod.py:98-114): the command to send and the key chosen.
    method Determine(round: real -> real) returns (action: Option<string>, chosen: Key)
      requires Consistent(ctx) && State() == Tally(Initial(), [Unset])
      modifies this
      ensures chosen == ShipRules.Determine(ctx, round) && action == Command(chosen)
      ensures State() == Tally(ShipRules.ApplyElimination(RoundAll(ShipRules.WeightMoves(ctx).weights, round),
                                                          ShipRules.WeightMoves(ctx).eliminated),
                               ShipRules.WeightMoves(ctx).eliminated)
    {
      WeightMoves();
      Round(round);
      ApplyElimination();
      chosen := Choose(weights);
      action := Command(chosen);
    }
  }
}
