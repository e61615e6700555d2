/// The agent function of mod.py: one game tick. The own ships decide in
/// order of descending cargo, each on the board as the previous moves left
/// it; then the shipyards decide on the resulting board. The game library's
/// Board.next(), which plays the set actions forward, is a parameter.
module ModAgent {
  import opened Wrappers
  import opened Board
  import opened PyDict
  import opened Survey
  import opened Sorting
  import opened Moves
  import opened ShipRules
  import opened ShipDecision
  import opened ModYard

  function CargoOf(s: Ship): real {
    s.cargo as real
  }



  /// The order in which the ships decide: sorted by cargo, largest first.
  function Queue(b: Snapshot): seq<Id> {
    IdList(SortDesc(b.me.ships, CargoOf), ShipId)
  }

  /// Every own ship is queued once, by descending cargo; ships of equal
  /// cargo keep the board's order.
  lemma QueueSpec(b: Snapshot)
    ensures multiset(SortDesc(b.me.ships, CargoOf)) == multiset(b.me.ships)
    ensures forall i, j | 0 <= i < j < |Queue(b)| ::
              SortDesc(b.me.ships, CargoOf)[i].cargo >= SortDesc(b.me.ships, CargoOf)[j].cargo
    ensures forall v :: WithKey(SortDesc(b.me.ships, CargoOf), CargoOf, v) == WithKey(b.me.ships, CargoOf, v)
    ensures forall i | 0 <= i < |Queue(b)| :: Queue(b)[i] == SortDesc(b.me.ships, CargoOf)[i].id
  {
    var s := SortDesc(b.me.ships, CargoOf);
    SortDescPermutes(b.me.ships, CargoOf);
    SortDescSorted(b.me.ships, CargoOf);
    forall i, j | 0 <= i < j < |s| ensures s[i].cargo >= s[j].cargo {
      assert CargoOf(s[i]) >= CargoOf(s[j]);
    }
    forall v ensures WithKey(s, CargoOf, v) == WithKey(b.me.ships, CargoOf, v) {
      SortDescStable(b.me.ships, CargoOf, v);
    }
  }

  /// The context DecisionShip(board, ship_id, step) builds for a ship.
  function Setup(b: Snapshot, ship: Ship, step: nat, pow15: real -> real): (c: Ctx)
    ensures Consistent(c) && c.b == b && c.ship == ship && c.step == step
  {
    Ctx(b, ship, step, b.cellAt(ship.pos), ClosestOf(b.me.yards, ship.pos), NearEnd(b, step), Surveyor(b), pow15)
  }

  /// The move DecisionShip(board, id, step).determine() picks for an own
  /// ship; never the 'None' placeholder.
  function Decide(b: Snapshot, id: Id, step: nat, pow15: real -> real, round: real -> real): (k: Key)
    requires id in ShipIds(b.me)
    ensures k != Unset
  {
    OwnShipFound(b, id);
    var c := Setup(b, ShipById(b, id).value, step, pow15);
    DetermineSpec(c, round);
    ShipRules.Determine(c, round)
  }

  /// A ship decision procedure that never picks the placeholder.
  ghost predicate Decisive(decide: (Snapshot, Id) -> Key) {
    forall b, id :: decide(b, id) != Unset
  }

  /// mod.py's ship decision for every board and ship id (an id that is no
  /// own ship is never asked; it is given mining).
  function Decisions(step: nat, pow15: real -> real, round: real -> real): (decide: (Snapshot, Id) -> Key)
    ensures Decisive(decide)
  {
    (b: Snapshot, id: Id) => if id in ShipIds(b.me) then Decide(b, id, step, pow15, round) else Mine
  }

  /// mod.py's shipyard decision for every board.
  function SpawnsFor(step: nat, round2: real -> real): Snapshot -> seq<Id> {
    (b: Snapshot) => Spawns(b, b.me, step, Surveyor(b), round2)
  }

  /// The board, as threaded through the loop, and the actions so far.
  datatype Tick = Tick(board: Snapshot, actions: Dict<Id, string>)

  /// One pass of the ship loop: an id that is still an own ship decides; a
  /// move other than mining is recorded under movement_dictionary's name
  /// and the board is advanced with it.
  function Turn(t: Tick, id: Id, decide: (Snapshot, Id) -> Key, advance: (Snapshot, Id, Key) -> Snapshot): (r: Tick)
    requires Valid(t.actions) && Decisive(decide)
    ensures Valid(r.actions)
  {
    if id !in ShipIds(t.board.me) then t
    else
      var k := decide(t.board, id);
      if k == Mine then t
      else
        CommandOnlyForActions(k);
        Tick(advance(t.board, id, k), Put(t.actions, id, Command(k).value))
  }

  /// A pass either changes nothing, or gives the deciding ship a move or
  /// CONVERT and leaves every other action as it was.
  lemma TurnSpec(t: Tick, id: Id, decide: (Snapshot, Id) -> Key, advance: (Snapshot, Id, Key) -> Snapshot)
    requires Valid(t.actions) && Decisive(decide)
    ensures var r := Turn(t, id, decide, advance);
            r == t || (id in r.actions.vals && ShipCommand(r.actions.vals[id]) &&
                       r.actions.vals == t.actions.vals[id := r.actions.vals[id]])
  {
    var r := Turn(t, id, decide, advance);
    if r != t {
      var k := decide(t.board, id);
      CommandOnlyForActions(k);
      CommandIsShipCommand(k);
    }
  }

  /// The ship loop over the queued ids, in order.
  function ShipTurns(b: Snapshot, queue: seq<Id>, decide: (Snapshot, Id) -> Key,
                     advance: (Snapshot, Id, Key) -> Snapshot): (t: Tick)
    requires Decisive(decide)
    ensures Valid(t.actions)
  {
    if queue == [] then Tick(b, Empty())
    else Turn(ShipTurns(b, queue[..|queue| - 1], decide, advance), queue[|queue| - 1], decide, advance)
  }

  /// Every ship action belongs to a queued id and is a move or CONVERT; the
  /// board is advanced only along with an action, so with no action the
  /// board is the one the tick started from.
  lemma {:induction false} ShipTurnsSpec(b: Snapshot, queue: seq<Id>, decide: (Snapshot, Id) -> Key,
                                         advance: (Snapshot, Id, Key) -> Snapshot)
    requires Decisive(decide)
    ensures var t := ShipTurns(b, queue, decide, advance);
            forall id | id in t.actions.vals :: id in queue && ShipCommand(t.actions.vals[id])
    ensures var t := ShipTurns(b, queue, decide, advance);
            t.actions.keys == [] ==> t.board == b
  {
    if queue != [] {
      var init := queue[..|queue| - 1];
      ShipTurnsSpec(b, init, decide, advance);
      var t := ShipTurns(b, init, decide, advance);
      var last := queue[|queue| - 1];
      TurnSpec(t, last, decide, advance);
      var r := Turn(t, last, decide, advance);
      if r != t {
        assert last in r.actions.keys;
      }
      forall id | id in r.actions.vals ensures id in queue {
        if id != last {
          assert id in init;
        }
      }
    }
  }

  /// The shipyard loop: every listed yard id that determine named is told
  /// to SPAWN, and the board is advanced.
  function YardTurns(ids: seq<Id>, spawn: seq<Id>, t: Tick, advanceYard: (Snapshot, Id) -> Snapshot): (r: Tick)
    requires Valid(t.actions)
    ensures Valid(r.actions)
  {
    if ids == [] then t
    else
      var r := YardTurns(ids[..|ids| - 1], spawn, t, advanceYard);
      var id := ids[|ids| - 1];
      if id in spawn then Tick(advanceYard(r.board, id), Put(r.actions, id, "SPAWN")) else r
  }

  /// A listed yard named by determine ends up with SPAWN; any other id keeps
  /// the action it had.
  lemma {:induction false} YardTurnsSpec(ids: seq<Id>, spawn: seq<Id>, t: Tick, advanceYard: (Snapshot, Id) -> Snapshot,
                                         id: Id)
    requires Valid(t.actions)
    ensures id in ids && id in spawn ==>
              id in YardTurns(ids, spawn, t, advanceYard).actions.vals &&
              YardTurns(ids, spawn, t, advanceYard).actions.vals[id] == "SPAWN"
    ensures !(id in ids && id in spawn) ==>
              (id in YardTurns(ids, spawn, t, advanceYard).actions.vals <==> id in t.actions.vals) &&
              (id in t.actions.vals ==> YardTurns(ids, spawn, t, advanceYard).actions.vals[id] == t.actions.vals[id])
  {
    if ids != [] {
      var init := ids[..|ids| - 1];
      YardTurnsSpec(init, spawn, t, advanceYard, id);
      if id in ids && id !in init {
        assert id == ids[|ids| - 1];
      }
    }
  }

  /// The actions of one tick, for any ship and shipyard decision.
  function Actions(b: Snapshot, decide: (Snapshot, Id) -> Key, spawns: Snapshot -> seq<Id>,
                   advance: (Snapshot, Id, Key) -> Snapshot, advanceYard: (Snapshot, Id) -> Snapshot): Dict<Id, string>
    requires Decisive(decide)
  {
    var t := ShipTurns(b, Queue(b), decide, advance);
    YardTurns(IdList(t.board.me.yards, YardId), spawns(t.board), t, advanceYard).actions
  }

  /// What one tick yields: SPAWN exactly for the yards of the board after
  /// the ship moves that the shipyard decision names, and otherwise a move
  /// or CONVERT for a ship that was an own ship at the start of the tick.
  lemma ActionsSpec(b: Snapshot, decide: (Snapshot, Id) -> Key, spawns: Snapshot -> seq<Id>,
                    advance: (Snapshot, Id, Key) -> Snapshot, advanceYard: (Snapshot, Id) -> Snapshot, id: Id)
    requires Decisive(decide)
    ensures var t := ShipTurns(b, Queue(b), decide, advance);
            var a := Actions(b, decide, spawns, advance, advanceYard);
            && (id in YardIds(t.board.me) && id in spawns(t.board) ==> id in a.vals && a.vals[id] == "SPAWN")
            && (id in a.vals && !(id in YardIds(t.board.me) && id in spawns(t.board)) ==>
                  id in ShipIds(b.me) && ShipCommand(a.vals[id]))
  {
    var t := ShipTurns(b, Queue(b), decide, advance);
    var ids := IdList(t.board.me.yards, YardId);
    YardTurnsSpec(ids, spawns(t.board), t, advanceYard, id);
    ShipTurnsSpec(b, Queue(b), decide, advance);
    if id in YardIds(t.board.me) {
      var y :| y in t.board.me.yards && y.id == id;
      var i :| 0 <= i < |t.board.me.yards| && t.board.me.yards[i] == y;
      assert ids[i] == id;
    }
    if id in ids {
      var i :| 0 <= i < |ids| && ids[i] == id;
      assert t.board.me.yards[i] in t.board.me.yards;
    }
    if id in Queue(b) {
      QueueSpec(b);
      var i :| 0 <= i < |Queue(b)| && Queue(b)[i] == id;
      var s := SortDesc(b.me.ships, CargoOf);
      assert s[i] in multiset(b.me.ships);
    }
  }

  /// The actions agent returns for one tick.
  function TickActions(b: Snapshot, step: nat, pow15: real -> real, round: real -> real, round2: real -> real,
                       advance: (Snapshot, Id, Key) -> Snapshot, advanceYard: (Snapshot, Id) -> Snapshot): Dict<Id, string>
  {
    Actions(b, Decisions(step, pow15, round), SpawnsFor(step, round2), advance, advanceYard)
  }

  /// A yard is told to SPAWN only when, on the board the ship moves left,
  /// at least 500 halite is banked, no ship stands on the yard and its
  /// tendency exceeds 5.
  lemma SpawnOnlyWhenStrong(b: Snapshot, step: nat, pow15: real -> real, round: real -> real, round2: real -> real,
                            advance: (Snapshot, Id, Key) -> Snapshot, advanceYard: (Snapshot, Id) -> Snapshot, id: Id)
    ensures var after := ShipTurns(b, Queue(b), Decisions(step, pow15, round), advance).board;
            var a := TickActions(b, step, pow15, round, round2, advance, advanceYard);
            id in a.vals && a.vals[id] == "SPAWN" ==>
              && after.me.halite >= 500
              && exists i | 0 <= i < |after.me.yards| ::
                   after.me.yards[i].id == id && after.cellAt(after.me.yards[i].pos).ship.None? &&
                   YardWeight(after, after.me, step, Surveyor(after)(after.me.yards[i].pos), round2) > 5.0
  {
    var decide := Decisions(step, pow15, round);
    var spawns := SpawnsFor(step, round2);
    var after := ShipTurns(b, Queue(b), decide, advance).board;
    var a := TickActions(b, step, pow15, round, round2, advance, advanceYard);
    if id in a.vals && a.vals[id] == "SPAWN" {
      ActionsSpec(b, decide, spawns, advance, advanceYard, id);
      SpawnIsNoShipCommand();
      assert id in spawns(after);
      SpawnsSpec(after, after.me, step, Surveyor(after), round2);
    }
  }

  /// Conversely, with at least 500 halite banked on the board the ship moves
  /// left, every yard there with no ship on it and tendency above 5 (whose
  /// id no other yard shares) is told to SPAWN.
  lemma SpawnWhenStrong(b: Snapshot, step: nat, pow15: real -> real, round: real -> real, round2: real -> real,
                        advance: (Snapshot, Id, Key) -> Snapshot, advanceYard: (Snapshot, Id) -> Snapshot, i: nat)
    ensures var after := ShipTurns(b, Queue(b), Decisions(step, pow15, round), advance).board;
            var a := TickActions(b, step, pow15, round, round2, advance, advanceYard);
            && after.me.halite >= 500 && i < |after.me.yards| && after.cellAt(after.me.yards[i].pos).ship.None?
            && YardWeight(after, after.me, step, Surveyor(after)(after.me.yards[i].pos), round2) > 5.0
            && (forall j | 0 <= j < |after.me.yards| :: after.me.yards[j].id == after.me.yards[i].id ==> j == i) ==>
                after.me.yards[i].id in a.vals && a.vals[after.me.yards[i].id] == "SPAWN"
  {
    var decide := Decisions(step, pow15, round);
    var spawns := SpawnsFor(step, round2);
    var after := ShipTurns(b, Queue(b), decide, advance).board;
    if after.me.halite >= 500 && i < |after.me.yards| {
      SpawnsSpec(after, after.me, step, Surveyor(after), round2);
      var y := after.me.yards[i];
      assert y in after.me.yards;
      ActionsSpec(b, decide, spawns, advance, advanceYard, y.id);
    }
  }

  /// One pass of the ship loop (mod.py:573-581): the ship, if it is still
  /// an own ship, decides, and a move other than mining is recorded and
  /// played forward.
  method ShipTurn(board: Snapshot, actions: Dict<Id, string>, id: Id, step: nat, pow15: real -> real,
                  round: real -> real, advance: (Snapshot, Id, Key) -> Snapshot)
    returns (board': Snapshot, actions': Dict<Id, string>)
    requires Valid(actions)
    ensures Tick(board', actions') == Turn(Tick(board, actions), id, Decisions(step, pow15, round), advance)
  {
    board', actions' := board, actions;
    if id in ShipIds(board.me) {
      OwnShipFound(board, id);
      var decision := new DecisionShip(board, id, step, pow15);
      assert decision.ctx == Setup(board, ShipById(board, id).value, step, pow15);
      var next, kind := decision.Determine(round);
      assert kind == Decisions(step, pow15, round)(board, id);
      if kind != Mine {
        CommandOnlyForActions(kind);
        actions' := Put(actions, id, next.value);
        board' := advance(board, id, kind);
      }
    }
  }

  /// The ship loop of agent (mod.py:572-581).
  method ShipLoop(b: Snapshot, step: nat, pow15: real -> real, round: real -> real,
                  advance: (Snapshot, Id, Key) -> Snapshot)
    returns (board: Snapshot, actions: Dict<Id, string>)
    ensures Tick(board, actions) == ShipTurns(b, Queue(b), Decisions(step, pow15, round), advance)
  {
    board := b;
    var ships := Queue(b);
    actions := Empty();
    for i := 0 to |ships|
      invariant Valid(actions)
      invariant Tick(board, actions) == ShipTurns(b, ships[..i], Decisions(step, pow15, round), advance)
    {
      board, actions := ShipTurn(board, actions, ships[i], step, pow15, round, advance);
      assert ships[..i + 1][..i] == ships[..i];
    }
    assert ships[..|ships|] == ships;
  }

  /// The shipyard loop of agent (mod.py:585-589).
  method YardLoop(board: Snapshot, actions: Dict<Id, string>, yardIds: seq<Id>, spawn: seq<Id>,
                  advanceYard: (Snapshot, Id) -> Snapshot)
    returns (board': Snapshot, actions': Dict<Id, string>)
    requires Valid(actions)
    ensures Tick(board', actions') == YardTurns(yardIds, spawn, Tick(board, actions), advanceYard)
  {
    board', actions' := board, actions;
    for j := 0 to |yardIds|
      invariant Valid(actions')
      invariant Tick(board', actions') == YardTurns(yardIds[..j], spawn, Tick(board, actions), advanceYard)
    {
      if yardIds[j] in spawn {
        actions' := Put(actions', yardIds[j], "SPAWN");
        board' := advanceYard(board', yardIds[j]);
      }
      assert yardIds[..j + 1][..j] == yardIds[..j];
    }
    assert yardIds[..|yardIds|] == yardIds;
  }

  /// agent (mod.py:558-591), without its log lines.
  method Agent(b: Snapshot, step: nat, pow15: real -> real, round: real -> real, round2: real -> real,
               advance: (Snapshot, Id, Key) -> Snapshot, advanceYard: (Snapshot, Id) -> Snapshot)
    returns (actions: Dict<Id, string>)
    ensures actions == TickActions(b, step, pow15, round, round2, advance, advanceYard)
  {
    var board;
    board, actions := ShipLoop(b, step, pow15, round, advance);
    var yardDecisions := new ShipyardDecisions(board, board.me, step, round2);
    var spawn := yardDecisions.Determine();
    assert spawn == SpawnsFor(step, round2)(board);
    board, actions := YardLoop(board, actions, IdList(board.me.yards, YardId), spawn, advanceYard);
  }
}
