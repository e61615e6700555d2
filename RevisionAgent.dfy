/// The agent function of agent_a.py, agent_b.py and current.py: one game
/// tick. Each own ship, in the order of the player's ship list, is looked
/// up on the board as the actions set so far leave it and decides; then
/// each own shipyard whose cell is free may spawn. The game library's
/// board.next(), which plays the actions set so far on the tick's board, is
/// the parameter `next`.
module RevisionAgent {
  import opened Wrappers
  import opened Board
  import opened PyDict
  import opened Moves
  import opened Grid5
  import opened Revisions
  import opened RevisionShip
  import opened Tendency

  /// Ships stand on the board's 21x21 squares, as the game places them.
  predicate Placed(b: Snapshot) {
    forall s | s in AllShips(b) :: OnBoard(s.pos)
  }

  /// Every board next can produce is placed.
  ghost predicate NextPlaced(next: Dict<Id, string> -> Snapshot) {
    forall a :: Placed(next(a))
  }

  /// weight_cell's factors: 8, 7 and 10 in agent_a.py and agent_b.py; in
  /// current.py ShipTendency(board, ship).tend()'s offensive and defensive,
  /// offensive also weighing enemy yards.
  function HyperOf(rev: Revision, b: Snapshot, ship: Ship): (h: Hyper)
    ensures rev != Current ==> h.offensive == 8.0 && h.defensive == 7.0 && h.raid == 10.0
    ensures rev == Current ==> 0.0 <= h.offensive <= 1.0 && 0.0 < h.defensive <= 1.0 && h.raid == h.offensive
  {
    if rev == Current then
      var t := Tended(b, ship);
      Hyper(t.offensive, t.defensive, t.offensive)
    else Fixed
  }

  /// How Decesion_Ship(board, ship, step).determine() ends.
  function Decided(rev: Revision, b: Snapshot, ship: Ship, step: nat, round3: real -> real): Verdict {
    Revisions.Determine(SettingOf(b, ship, step, rev, HyperOf(rev, b, ship), round3))
  }

  /// The decision procedure of a revision, for any board and ship.
  function Decider(rev: Revision, step: nat, round3: real -> real): (Snapshot, Ship) -> Verdict {
    (b: Snapshot, ship: Ship) => Decided(rev, b, ship, step, round3)
  }

  /// Whatever a decision sends to the game is a ship command.
  lemma ActionIsShipCommand(name: string)
    requires Action(name).Some?
    ensures ShipCommand(Action(name).value)
  {
    CommandIsShipCommand(KeyOf(name).value);
  }

  /// The loop state: the board and the actions set so far, or the key whose
  /// lookup raised KeyError (a ship id, or 'mine' in determine).
  datatype Run = Running(board: Snapshot, actions: Dict<Id, string>) | Raised(key: Id)

  predicate Sound(r: Run) {
    r.Running? ==> Valid(r.actions)
  }

  /// One pass of the ship loop: new_board.ships[id] is looked up, the ship
  /// decides, a move or CONVERT is set as its action (mining sets none), and
  /// the board is replayed. A KeyError in the lookup or in determine ends
  /// the tick.
  function ShipStep(r: Run, id: Id, decide: (Snapshot, Ship) -> Verdict, next: Dict<Id, string> -> Snapshot): (r': Run)
    requires Sound(r)
    ensures Sound(r')
  {
    match r
    case Raised(_) => r
    case Running(board, actions) =>
      match ShipById(board, id)
      case None => Raised(id)
      case Some(ship) =>
        match decide(board, ship)
        case Missing(k) => Raised(k)
        case Pick(name) =>
          var action := Action(name);
          var acts := if action.Some? then Put(actions, id, action.value) else actions;
          Running(next(acts), acts)
  }

  function ShipPass(b: Snapshot, ids: seq<Id>, decide: (Snapshot, Ship) -> Verdict,
                    next: Dict<Id, string> -> Snapshot): (r: Run)
    ensures Sound(r)
  {
    if ids == [] then Running(b, Empty())
    else ShipStep(ShipPass(b, ids[..|ids| - 1], decide, next), ids[|ids| - 1], decide, next)
  }

  /// A pass for a ship found on the board raises KeyError('mine') exactly
  /// when determine finds no convert rule firing, all four neighbours
  /// blocked, and one of them an enemy ship carrying less than this ship.
  lemma ShipStepRaisesMine(rev: Revision, board: Snapshot, actions: Dict<Id, string>, id: Id, step: nat,
                           round3: real -> real, next: Dict<Id, string> -> Snapshot)
    requires Valid(actions) && ShipById(board, id).Some? && OnBoard(ShipById(board, id).value.pos)
    ensures var ship := ShipById(board, id).value;
            var s := SettingOf(board, ship, step, rev, HyperOf(rev, board, ship), round3);
            ShipStep(Running(board, actions), id, Decider(rev, step, round3), next) == Raised("mine") <==>
              && !ConvertFirst(s)
              && (forall i | 0 <= i < 4 :: Blocked(s, Neighbour(s, FirstDirs[i])))
              && (exists i | 0 <= i < 4 :: Weaker(s, Neighbour(s, FirstDirs[i])))
  {
    var ship := ShipById(board, id).value;
    var s := SettingOf(board, ship, step, rev, HyperOf(rev, board, ship), round3);
    RaisesSpec(s);
    assert Decider(rev, step, round3)(board, ship) == Determine(s);
  }

  /// A KeyError ends the loop: once a prefix raised, the whole loop raised
  /// the same.
  lemma {:induction false} ShipPassRaised(b: Snapshot, ids: seq<Id>, i: nat, decide: (Snapshot, Ship) -> Verdict,
                                          next: Dict<Id, string> -> Snapshot)
    requires i <= |ids| && ShipPass(b, ids[..i], decide, next).Raised?
    ensures ShipPass(b, ids, decide, next) == ShipPass(b, ids[..i], decide, next)
  {
    if i < |ids| {
      var init := ids[..|ids| - 1];
      assert init[..i] == ids[..i];
      ShipPassRaised(b, init, i, decide, next);
    } else {
      assert ids[..i] == ids;
    }
  }

  /// The first ship of the list decides on the board as given; when its
  /// determine raises KeyError('mine'), so does the whole tick.
  lemma TickRaisesMine(rev: Revision, b: Snapshot, step: nat, round3: real -> real,
                       next: Dict<Id, string> -> Snapshot)
    requires Placed(b) && b.me.ships != []
    ensures var ship := ShipById(b, b.me.ships[0].id).value;
            var s := SettingOf(b, ship, step, rev, HyperOf(rev, b, ship), round3);
            && !ConvertFirst(s)
            && (forall i | 0 <= i < 4 :: Blocked(s, Neighbour(s, FirstDirs[i])))
            && (exists i | 0 <= i < 4 :: Weaker(s, Neighbour(s, FirstDirs[i])))
            ==> AgentOutcome(rev, b, step, round3, next) == KeyError("mine")
  {
    var id := b.me.ships[0].id;
    OwnShipFound(b, id);
    var ship := ShipById(b, id).value;
    assert ship in AllShips(b);
    var sids := IdList(b.me.ships, ShipId);
    assert sids[..1] == [id];
    assert [id][..0] == [];
    ShipStepRaisesMine(rev, b, Empty(), id, step, round3, next);
    var s := SettingOf(b, ship, step, rev, HyperOf(rev, b, ship), round3);
    if && !ConvertFirst(s)
       && (forall i | 0 <= i < 4 :: Blocked(s, Neighbour(s, FirstDirs[i])))
       && (exists i | 0 <= i < 4 :: Weaker(s, Neighbour(s, FirstDirs[i]))) {
      ShipPassRaised(b, sids, 1, Decider(rev, step, round3), next);
    }
  }

  /// Every action the ship loop sets belongs to a listed id and is a move
  /// or CONVERT.
  lemma {:induction false} ShipPassSpec(b: Snapshot, ids: seq<Id>, decide: (Snapshot, Ship) -> Verdict,
                                        next: Dict<Id, string> -> Snapshot)
    ensures var r := ShipPass(b, ids, decide, next);
            r.Running? ==> forall k | k in r.actions.vals :: k in ids && ShipCommand(r.actions.vals[k])
  {
    if ids != [] {
      var init := ids[..|ids| - 1];
      ShipPassSpec(b, init, decide, next);
      var prev := ShipPass(b, init, decide, next);
      var id := ids[|ids| - 1];
      if prev.Running? && ShipById(prev.board, id).Some? {
        var v := decide(prev.board, ShipById(prev.board, id).value);
        if v.Pick? && Action(v.key).Some? {
          ActionIsShipCommand(v.key);
        }
      }
    }
  }

  /// The spawn window: step < 100 in agent_b.py and current.py, step < 150
  /// in agent_a.py.
  function Window(rev: Revision): nat {
    if rev == AgentA then 150 else 100
  }

  /// The three spawn conditions, on the player as the tick began: no ships,
  /// every third step inside the window, or rich late in the game.
  predicate SpawnRule(rev: Revision, me: Player, step: nat) {
    || |me.ships| == 0
    || (step < Window(rev) && step % 3 == 1)
    || (step > 200 && me.halite > 10000 + |me.ships| * 1000)
  }

  /// agent_b.py and current.py spawn alike; agent_a.py spawns whenever they
  /// do, and in addition exactly on the steps 100 to 149 that leave
  /// remainder 1 modulo 3 while ships remain.
  lemma SpawnRuleWindow(me: Player, step: nat)
    ensures SpawnRule(AgentB, me, step) == SpawnRule(Current, me, step)
    ensures SpawnRule(AgentB, me, step) ==> SpawnRule(AgentA, me, step)
    ensures SpawnRule(AgentA, me, step) && !SpawnRule(AgentB, me, step) <==>
              |me.ships| > 0 && 100 <= step < 150 && step % 3 == 1
  {
  }

  /// One pass of the shipyard loop: new_board.shipyards[id] is looked up;
  /// if no ship stands on its cell, the step is before 392 and the spawn
  /// rule holds, it is told to SPAWN; the board is replayed.
  function YardStep(rev: Revision, me: Player, r: Run, id: Id, step: nat,
                    next: Dict<Id, string> -> Snapshot): (r': Run)
    requires Sound(r)
    ensures Sound(r')
  {
    match r
    case Raised(_) => r
    case Running(board, actions) =>
      match YardById(board, id)
      case None => Raised(id)
      case Some(y) =>
        var spawn := board.cellAt(y.pos).ship.None? && step < 392 && SpawnRule(rev, me, step);
        var acts := if spawn then Put(actions, id, "SPAWN") else actions;
        Running(next(acts), acts)
  }

  function YardPass(rev: Revision, me: Player, r: Run, ids: seq<Id>, step: nat,
                    next: Dict<Id, string> -> Snapshot): (r': Run)
    requires Sound(r)
    ensures Sound(r')
  {
    if ids == [] then r else YardStep(rev, me, YardPass(rev, me, r, ids[..|ids| - 1], step, next), ids[|ids| - 1], step, next)
  }

  lemma {:induction false} YardPassRaised(rev: Revision, me: Player, r: Run, ids: seq<Id>, i: nat, step: nat,
                                          next: Dict<Id, string> -> Snapshot)
    requires Sound(r) && i <= |ids| && YardPass(rev, me, r, ids[..i], step, next).Raised?
    ensures YardPass(rev, me, r, ids, step, next) == YardPass(rev, me, r, ids[..i], step, next)
  {
    if i < |ids| {
      var init := ids[..|ids| - 1];
      assert init[..i] == ids[..i];
      YardPassRaised(rev, me, r, init, i, step, next);
    } else {
      assert ids[..i] == ids;
    }
  }

  /// The shipyard loop keeps every action it finds, and any key it adds or
  /// changes is a listed yard told to SPAWN, before step 392 and under the
  /// spawn rule.
  lemma {:induction false} YardPassSpec(rev: Revision, me: Player, r: Run, ids: seq<Id>, step: nat,
                                        next: Dict<Id, string> -> Snapshot, k: Id)
    requires Sound(r) && r.Running?
    ensures var r' := YardPass(rev, me, r, ids, step, next);
            r'.Running? && k in r'.actions.vals ==>
              (k in r.actions.vals && r'.actions.vals[k] == r.actions.vals[k]) ||
              (k in ids && r'.actions.vals[k] == "SPAWN" && step < 392 && SpawnRule(rev, me, step))
    ensures var r' := YardPass(rev, me, r, ids, step, next);
            r'.Running? && k in r.actions.vals ==> k in r'.actions.vals
  {
    if ids != [] {
      YardPassSpec(rev, me, r, ids[..|ids| - 1], step, next, k);
    }
  }



  /// What agent returns (me.next_actions), or the KeyError it raises.
  datatype Outcome = Returned(actions: Dict<Id, string>) | KeyError(key: Id)

  /// A tick for any ship decision procedure.
  function TickOutcome(rev: Revision, b: Snapshot, step: nat, decide: (Snapshot, Ship) -> Verdict,
                       next: Dict<Id, string> -> Snapshot): Outcome
  {
    match ShipPass(b, IdList(b.me.ships, ShipId), decide, next)
    case Raised(k) => KeyError(k)
    case Running(board, actions) =>
      match YardPass(rev, b.me, Running(board, actions), IdList(b.me.yards, YardId), step, next)
      case Running(_, actions') => Returned(actions')
      case Raised(k) => KeyError(k)
  }

  function AgentOutcome(rev: Revision, b: Snapshot, step: nat, round3: real -> real,
                        next: Dict<Id, string> -> Snapshot): Outcome
  {
    TickOutcome(rev, b, step, Decider(rev, step, round3), next)
  }

  /// me.next_actions: SPAWN only for an own shipyard, before step 392 and
  /// under the spawn rule; any other action is a move or CONVERT of an own
  /// ship. From step 392 on no shipyard spawns.
  lemma TickOutcomeSpec(rev: Revision, b: Snapshot, step: nat, decide: (Snapshot, Ship) -> Verdict,
                        next: Dict<Id, string> -> Snapshot, k: Id)
    ensures var o := TickOutcome(rev, b, step, decide, next);
            o.Returned? && k in o.actions.vals ==>
              && (o.actions.vals[k] == "SPAWN" ==> k in YardIds(b.me) && step < 392 && SpawnRule(rev, b.me, step))
              && (o.actions.vals[k] != "SPAWN" ==> k in ShipIds(b.me) && ShipCommand(o.actions.vals[k]))
  {
    var sids, yids := IdList(b.me.ships, ShipId), IdList(b.me.yards, YardId);
    var ships := ShipPass(b, sids, decide, next);
    var o := TickOutcome(rev, b, step, decide, next);
    if o.Returned? && k in o.actions.vals {
      ShipPassSpec(b, sids, decide, next);
      YardPassSpec(rev, b.me, ships, yids, step, next, k);
      var a := o.actions.vals[k];
      if k in ships.actions.vals && a == ships.actions.vals[k] {
        var i :| 0 <= i < |sids| && sids[i] == k;
        assert b.me.ships[i] in b.me.ships;
        SpawnIsNoShipCommand();
      } else {
        var i :| 0 <= i < |yids| && yids[i] == k;
        assert b.me.yards[i] in b.me.yards;
      }
    }
  }

  /// weight_cell's factors as Decision_Ship's constructor obtains them.
  method HyperFor(rev: Revision, board: Snapshot, ship: Ship) returns (hyper: Hyper)
    ensures hyper == HyperOf(rev, board, ship)
  {
    hyper := Fixed;
    if rev == Current {
      var tendency := new ShipTendency(board, ship);
      var t := tendency.Tend();
      hyper := Hyper(t.offensive, t.defensive, t.offensive);
    }
  }

  /// Decesion_Ship(new_board, ship, step).determine() for a ship on the
  /// board.
  method Decide(rev: Revision, board: Snapshot, ship: Ship, step: nat, round3: real -> real)
    returns (verdict: Verdict, action: Option<string>)
    requires OnBoard(ship.pos)
    ensures verdict == Decided(rev, board, ship, step, round3)
    ensures action == (if verdict.Pick? then Action(verdict.key) else None)
  {
    var hyper := HyperFor(rev, board, ship);
    var decider := new DecesionShip(board, ship, step, rev, hyper, round3);
    verdict, action := decider.Determine();
  }

  /// One pass of the ship loop (agent_b.py:252-257, agent_a.py:226-232,
  /// current.py:506-511).
  method ShipTurn(rev: Revision, board: Snapshot, actions: Dict<Id, string>, id: Id, step: nat,
                  round3: real -> real, next: Dict<Id, string> -> Snapshot)
    returns (r: Run)
    requires Valid(actions) && Placed(board)
    ensures r == ShipStep(Running(board, actions), id, Decider(rev, step, round3), next)
  {
    var found := ShipById(board, id);
    if found.None? {
      return Raised(id);
    }
    var ship := found.value;
    var verdict, action := Decide(rev, board, ship, step, round3);
    assert verdict == Decider(rev, step, round3)(board, ship);
    if verdict.Missing? {
      return Raised(verdict.key);
    }
    var acts := actions;
    if action.Some? {
      acts := Put(actions, id, action.value);
    }
    r := Running(next(acts), acts);
  }

  /// The loop's view of one pass: from the state after the first i ships
  /// to the state after i + 1.
  method ShipNext(rev: Revision, b: Snapshot, ids: seq<Id>, i: nat, r: Run, step: nat, round3: real -> real,
                  next: Dict<Id, string> -> Snapshot)
    returns (r': Run)
    requires i < |ids| && NextPlaced(next)
    requires r.Running? && Valid(r.actions) && Placed(r.board)
    requires r == ShipPass(b, ids[..i], Decider(rev, step, round3), next)
    ensures r' == ShipPass(b, ids[..i + 1], Decider(rev, step, round3), next)
    ensures r'.Running? ==> Valid(r'.actions) && Placed(r'.board)
  {
    assert ids[..i + 1][..i] == ids[..i];
    r' := ShipTurn(rev, r.board, r.actions, ids[i], step, round3, next);
  }

  /// The ship loop of agent; a KeyError ends it.
  method ShipLoop(rev: Revision, b: Snapshot, step: nat, round3: real -> real, next: Dict<Id, string> -> Snapshot)
    returns (r: Run)
    requires Placed(b) && NextPlaced(next)
    ensures r == ShipPass(b, IdList(b.me.ships, ShipId), Decider(rev, step, round3), next)
  {
    var ids := IdList(b.me.ships, ShipId);
    r := Running(b, Empty());
    for i := 0 to |ids|
      invariant r.Running? && Valid(r.actions) && Placed(r.board)
      invariant r == ShipPass(b, ids[..i], Decider(rev, step, round3), next)
    {
      var r' := ShipNext(rev, b, ids, i, r, step, round3, next);
      if r'.Raised? {
        ShipPassRaised(b, ids, i + 1, Decider(rev, step, round3), next);
        return r';
      }
      r := r';
    }
    assert ids[..|ids|] == ids;
  }

  /// One pass of the shipyard loop (agent_b.py:260-272, agent_a.py:235-247,
  /// current.py:513-525).
  method YardTurn(rev: Revision, me: Player, board: Snapshot, actions: Dict<Id, string>, id: Id, step: nat,
                  next: Dict<Id, string> -> Snapshot)
    returns (r: Run)
    requires Valid(actions)
    ensures r == YardStep(rev, me, Running(board, actions), id, step, next)
  {
    var found := YardById(board, id);
    if found.None? {
      return Raised(id);
    }
    var acts := actions;
    if board.cellAt(found.value.pos).ship.None? && step < 392 {
      if |me.ships| == 0 {
        acts := Put(actions, id, "SPAWN");
      }
      if step < Window(rev) && step % 3 == 1 {
        acts := Put(actions, id, "SPAWN");
      }
      if step > 200 && me.halite > 10000 + |me.ships| * 1000 {
        acts := Put(actions, id, "SPAWN");
      }
    }
    r := Running(next(acts), acts);
  }

  /// The loop's view of one pass: from the state after the first i yards
  /// to the state after i + 1.
  method YardNext(rev: Revision, me: Player, start: Run, ids: seq<Id>, i: nat, r: Run, step: nat,
                  next: Dict<Id, string> -> Snapshot)
    returns (r': Run)
    requires start.Running? && Valid(start.actions) && i < |ids|
    requires r.Running? && Valid(r.actions) && r == YardPass(rev, me, start, ids[..i], step, next)
    ensures r' == YardPass(rev, me, start, ids[..i + 1], step, next)
  {
    assert ids[..i + 1][..i] == ids[..i];
    r' := YardTurn(rev, me, r.board, r.actions, ids[i], step, next);
  }

  /// The shipyard loop of agent; a KeyError ends it.
  method YardLoop(rev: Revision, me: Player, start: Run, step: nat, next: Dict<Id, string> -> Snapshot)
    returns (r: Run)
    requires start.Running? && Valid(start.actions)
    ensures r == YardPass(rev, me, start, IdList(me.yards, YardId), step, next)
  {
    var ids := IdList(me.yards, YardId);
    r := start;
    for i := 0 to |ids|
      invariant r.Running? && Valid(r.actions)
      invariant r == YardPass(rev, me, start, ids[..i], step, next)
    {
      var r' := YardNext(rev, me, start, ids, i, r, step, next);
      if r'.Raised? {
        YardPassRaised(rev, me, start, ids, i + 1, step, next);
        return r';
      }
      r := r';
    }
    assert ids[..|ids|] == ids;
  }

  /// agent (agent_b.py:242-274, agent_a.py:215-250, current.py:496-527),
  /// without its log lines.
  method Agent(rev: Revision, b: Snapshot, step: nat, round3: real -> real, next: Dict<Id, string> -> Snapshot)
    returns (o: Outcome)
    requires Placed(b) && NextPlaced(next)
    ensures o == AgentOutcome(rev, b, step, round3, next)
  {
    var ships := ShipLoop(rev, b, step, round3, next);
    if ships.Raised? {
      return KeyError(ships.key);
    }
    var r := YardLoop(rev, b.me, ships, step, next);
    match r
    case Running(_, actions) => o := Returned(actions);
    case Raised(k) => o := KeyError(k);
  }
}
