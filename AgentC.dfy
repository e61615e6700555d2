/// agent_c.py: a rule-based bot. check_cell_prop rates the cell a ship
/// could move to; the ship loop filters the four moves into nominees and
/// decides between mining, converting and a random nominee; shipyards spawn
/// early or when the fleet is small; two fallbacks keep a ship and a
/// shipyard in play.
module AgentC {
  import opened Wrappers
  import opened Board
  import opened Moves

  // ---------------------------------------------------------------------
  // check_cell_prop (agent_c.py:65-96)
  // ---------------------------------------------------------------------

  /// What check_cell_prop rates a cell: -2 keep away, -1 flee, otherwise
  /// the appeal of moving there. shipIds and yardIds are the player's;
  /// cargo is the deciding ship's and bank the player's halite.
  function CheckCellProp(b: Snapshot, c: Cell, shipIds: set<Id>, yardIds: set<Id>, cargo: nat, bank: int): real {
    if c.ship.Some? then
      if c.ship.value.id in shipIds then -2.0
      else if c.ship.value.cargo < cargo then (c.ship.value.cargo * c.ship.value.cargo) as real
      else -1.0
    else if c.yard.Some? then
      if c.yard.value.id in yardIds then
        if cargo > 500 then (cargo * cargo) as real else 0.5 * cargo as real
      else if OwnerHalite(b, c.yard.value) > bank && cargo < 1000 then (OwnerHalite(b, c.yard.value) - bank) as real
      else -2.0
    else 0.0
  }

  /// The enemy-yard raid condition: the owner banks more and the cargo is
  /// under 1000.
  predicate Raid(b: Snapshot, y: Yard, cargo: nat, bank: int) {
    OwnerHalite(b, y) > bank && cargo < 1000
  }

  /// Every rating is -2, -1 or non-negative; -1 means exactly an enemy ship
  /// carrying at least our cargo, and -2 exactly an own ship, or, on a cell
  /// without a ship, an enemy shipyard not worth raiding.
  lemma CheckCellPropSpec(b: Snapshot, c: Cell, shipIds: set<Id>, yardIds: set<Id>, cargo: nat, bank: int)
    ensures var r := CheckCellProp(b, c, shipIds, yardIds, cargo, bank);
            && (r == -2.0 || r == -1.0 || r >= 0.0)
            && (r == -1.0 <==> c.ship.Some? && c.ship.value.id !in shipIds && c.ship.value.cargo >= cargo)
            && (r == -2.0 <==> (c.ship.Some? && c.ship.value.id in shipIds) ||
                               (c.ship.None? && c.yard.Some? && c.yard.value.id !in yardIds &&
                                !Raid(b, c.yard.value, cargo, bank)))
  {
  }

  /// A ship on the cell decides the rating; a shipyard under it is not
  /// looked at.
  lemma ShipBeforeYard(b: Snapshot, c: Cell, shipIds: set<Id>, yardIds: set<Id>, cargo: nat, bank: int)
    requires c.ship.Some?
    ensures CheckCellProp(b, c, shipIds, yardIds, cargo, bank) == CheckCellProp(b, c.(yard := None), shipIds, yardIds, cargo, bank)
  {
  }

  // ---------------------------------------------------------------------
  // One ship's decision (agent_c.py:147-206)
  // ---------------------------------------------------------------------

  /// What a ship's decision reads: the board as the loop left it, the
  /// player as the tick began, its bank, and the ship as found on the board.
  datatype Scene = Scene(b: Snapshot, me: Player, bank: int, ship: Ship)

  /// The order of the moves table: N, S, W, E.
  const Compass: seq<Dir> := [N, S, W, E]

  /// check_cell_prop of the cell one step in direction d.
  function Prop(sc: Scene, d: Dir): real {
    CheckCellProp(sc.b, sc.b.cellAt(Step(sc.ship.pos, d)), ShipIds(sc.me), YardIds(sc.me), sc.ship.cargo, sc.bank)
  }

  predicate Blocked(p: real) {
    p == -1.0 || p == -2.0
  }

  /// The nominees left after the filter loop, in the order of ds.
  function Nominees(sc: Scene, ds: seq<Dir>): seq<Dir> {
    if ds == [] then []
    else Nominees(sc, ds[..|ds| - 1]) + (if Blocked(Prop(sc, ds[|ds| - 1])) then [] else [ds[|ds| - 1]])
  }

  /// Whether some direction of ds rates -1.
  predicate Threatened(sc: Scene, ds: seq<Dir>) {
    ds != [] && (Threatened(sc, ds[..|ds| - 1]) || Prop(sc, ds[|ds| - 1]) == -1.0)
  }

  /// The convert test at the head of the loop; pow is
  /// step ** (step / (cargo + 10)).
  predicate Declared(sc: Scene, step: nat, pow: real) {
    sc.ship.cargo as real > 1000.0 + pow || step == 399
  }

  /// Whether mine is still set before the filter loop: not converting, no
  /// shipyard under the ship, and at least 30 halite in its cell.
  predicate MayMine(sc: Scene, step: nat, pow: real) {
    && !Declared(sc, step, pow)
    && sc.b.cellAt(sc.ship.pos).yard.None?
    && sc.b.cellAt(sc.ship.pos).halite >= 30.0
  }

  /// A ship's fate: a definite key, a uniformly random nominee
  /// (choose_between), or the IndexError choose_between raises on no
  /// nominees.
  datatype Choice = Act(k: Key) | AnyOf(nominees: seq<Dir>) | Crash

  /// The decision, stated on the filter's outcome.
  function ShipChoice(sc: Scene, step: nat, pow: real): Choice {
    var ns := Nominees(sc, Compass);
    if MayMine(sc, step, pow) && !Threatened(sc, Compass) then Act(Mine)
    else if Declared(sc, step, pow) then (if ns == [] then Act(Mine) else Act(Convert))
    else if ns == [] then Crash
    else AnyOf(ns)
  }

  /// A direction stays a nominee iff its cell rates neither -1 nor -2, and
  /// the nominees keep the table's order without repeats.
  lemma {:induction false} NomineesSpec(sc: Scene, ds: seq<Dir>)
    ensures forall d :: d in Nominees(sc, ds) <==> d in ds && !Blocked(Prop(sc, d))
    ensures |Nominees(sc, ds)| <= |ds|
    ensures (forall i, j | 0 <= i < j < |ds| :: ds[i] != ds[j]) ==>
              forall i, j | 0 <= i < j < |Nominees(sc, ds)| :: Nominees(sc, ds)[i] != Nominees(sc, ds)[j]
  {
    if ds != [] {
      var init := ds[..|ds| - 1];
      NomineesSpec(sc, init);
      assert forall d :: d in ds <==> d in init || d == ds[|ds| - 1];
      if forall i, j | 0 <= i < j < |ds| :: ds[i] != ds[j] {
        assert ds[|ds| - 1] !in init;
      }
    }
  }

  /// mine is switched off by the loop iff some direction rates -1.
  lemma {:induction false} ThreatenedSpec(sc: Scene, ds: seq<Dir>)
    ensures Threatened(sc, ds) <==> exists d | d in ds :: Prop(sc, d) == -1.0
  {
    if ds != [] {
      var init := ds[..|ds| - 1];
      ThreatenedSpec(sc, init);
      assert forall d :: d in ds <==> d in init || d == ds[|ds| - 1];
    }
  }

  /// Every direction is in the table.
  lemma CompassComplete(d: Dir)
    ensures d in Compass
  {
    match d
    case N => assert Compass[0] == N;
    case S => assert Compass[1] == S;
    case W => assert Compass[2] == W;
    case E => assert Compass[3] == E;
  }

  /// The decision's cases: the ship mines iff it may mine and nothing
  /// threatens it, or it was converting and every direction is blocked;
  /// it converts iff it was converting and some direction is open; it
  /// raises iff it was neither converting nor mining and every direction is
  /// blocked; otherwise it takes a random open direction.
  lemma ShipChoiceSpec(sc: Scene, step: nat, pow: real)
    ensures var c := ShipChoice(sc, step, pow);
            var open := exists d :: !Blocked(Prop(sc, d));
            var mining := MayMine(sc, step, pow) && !(exists d :: Prop(sc, d) == -1.0);
            && (c == Act(Mine) <==> mining || (Declared(sc, step, pow) && !open))
            && (c == Act(Convert) <==> !mining && Declared(sc, step, pow) && open)
            && (c == Crash <==> !mining && !Declared(sc, step, pow) && !open)
            && (c.AnyOf? ==> !mining && !Declared(sc, step, pow) && c.nominees != [] &&
                             forall d :: d in c.nominees <==> !Blocked(Prop(sc, d)))
  {
    NomineesSpec(sc, Compass);
    ThreatenedSpec(sc, Compass);
    forall d ensures d in Compass {
      CompassComplete(d);
    }
    var ns := Nominees(sc, Compass);
    if exists d :: !Blocked(Prop(sc, d)) {
      var d :| !Blocked(Prop(sc, d));
      assert d in ns;
    }
    if ns != [] {
      assert !Blocked(Prop(sc, ns[0]));
    }
  }

  /// When every direction is blocked and mine is off, the forced mining
  /// at the end of the loop is reached only by a ship that was converting;
  /// any other ship raises IndexError in choose_between first.
  lemma ForcedMine(sc: Scene, step: nat, pow: real)
    requires Nominees(sc, Compass) == []
    requires !(MayMine(sc, step, pow) && !Threatened(sc, Compass))
    ensures ShipChoice(sc, step, pow) == (if Declared(sc, step, pow) then Act(Mine) else Crash)
  {
  }

  /// nominees.remove(d): drops the first occurrence.
  function Remove(s: seq<Dir>, d: Dir): (r: seq<Dir>)
    ensures d !in s ==> r == s
    ensures d in s ==> |r| == |s| - 1
  {
    if s == [] then []
    else if s[0] == d then s[1..]
    else [s[0]] + Remove(s[1..], d)
  }

  /// Dropping the head of what remains to scan: the nominees so far, then
  /// the unscanned directions.
  lemma {:induction false} RemoveNext(kept: seq<Dir>, rest: seq<Dir>)
    requires rest != [] && rest[0] !in kept
    ensures Remove(kept + rest, rest[0]) == kept + rest[1..]
  {
    if kept != [] {
      assert (kept + rest)[0] == kept[0];
      assert (kept + rest)[1..] == kept[1..] + rest;
      RemoveNext(kept[1..], rest);
    }
  }

  /// One pass of the filter loop, on the nominees so far followed by the
  /// directions still to scan.
  lemma FilterStep(sc: Scene, i: nat)
    requires i < 4
    ensures Compass[..i + 1][..i] == Compass[..i]
    ensures Blocked(Prop(sc, Compass[i])) ==>
              Remove(Nominees(sc, Compass[..i]) + Compass[i..], Compass[i]) == Nominees(sc, Compass[..i + 1]) + Compass[i + 1..]
    ensures !Blocked(Prop(sc, Compass[i])) ==>
              Nominees(sc, Compass[..i]) + Compass[i..] == Nominees(sc, Compass[..i + 1]) + Compass[i + 1..]
  {
    var d := Compass[i];
    var pre := Compass[..i];
    assert Compass[..i + 1] == pre + [d];
    assert Compass[..i + 1][..i] == pre;
    assert Compass[i..] == [d] + Compass[i + 1..];
    if Blocked(Prop(sc, d)) {
      NomineesSpec(sc, pre);
      assert d !in pre;
      RemoveNext(Nominees(sc, pre), Compass[i..]);
    }
  }

  /// The best_move scan (agent_c.py:186-192): val starts at -100000000
  /// and rises to every property that reaches it. Top is val after the
  /// first n nominees.
  function Top(sc: Scene, ns: seq<Dir>, n: nat): real
    requires n <= |ns|
  {
    if n == 0 then -100000000.0
    else if Prop(sc, ns[n - 1]) >= Top(sc, ns, n - 1) then Prop(sc, ns[n - 1])
    else Top(sc, ns, n - 1)
  }

  /// best_move after the first n nominees: those whose property reached
  /// every property before them, in order.
  function Maxima(sc: Scene, ns: seq<Dir>, n: nat): seq<Dir>
    requires n <= |ns|
  {
    if n == 0 then []
    else Maxima(sc, ns, n - 1) + (if Prop(sc, ns[n - 1]) >= Top(sc, ns, n - 1) then [ns[n - 1]] else [])
  }

  /// val is the largest of -100000000 and the properties scanned.
  lemma {:induction false} TopSpec(sc: Scene, ns: seq<Dir>, n: nat)
    requires n <= |ns|
    ensures Top(sc, ns, n) >= -100000000.0
    ensures forall i | 0 <= i < n :: Prop(sc, ns[i]) <= Top(sc, ns, n)
    ensures Top(sc, ns, n) == -100000000.0 || exists i | 0 <= i < n :: Prop(sc, ns[i]) == Top(sc, ns, n)
  {
    if n > 0 {
      TopSpec(sc, ns, n - 1);
    }
  }

  /// best_move holds scanned nominees only.
  lemma {:induction false} MaximaScanned(sc: Scene, ns: seq<Dir>, n: nat)
    requires n <= |ns|
    ensures forall k | 0 <= k < |Maxima(sc, ns, n)| :: Maxima(sc, ns, n)[k] in ns[..n]
  {
    if n > 0 {
      MaximaScanned(sc, ns, n - 1);
      assert ns[..n] == ns[..n - 1] + [ns[n - 1]];
    }
  }

  /// best_move is empty exactly when no property reached -100000000.
  lemma {:induction false} MaximaEmpty(sc: Scene, ns: seq<Dir>, n: nat)
    requires n <= |ns|
    ensures Maxima(sc, ns, n) == [] <==> forall i | 0 <= i < n :: Prop(sc, ns[i]) < -100000000.0
  {
    if n > 0 {
      MaximaEmpty(sc, ns, n - 1);
      var m, p := Maxima(sc, ns, n - 1), Prop(sc, ns[n - 1]);
      if m == [] {
        TopSpec(sc, ns, n - 1);
        assert Top(sc, ns, n - 1) == -100000000.0;
      } else {
        var i :| 0 <= i < n - 1 && Prop(sc, ns[i]) >= -100000000.0;
        assert |Maxima(sc, ns, n)| >= |m|;
      }
    }
  }

  /// The last entry of best_move carries the largest property scanned.
  lemma {:induction false} MaximaLast(sc: Scene, ns: seq<Dir>, n: nat)
    requires n <= |ns|
    ensures Maxima(sc, ns, n) != [] ==>
              Prop(sc, Maxima(sc, ns, n)[|Maxima(sc, ns, n)| - 1]) == Top(sc, ns, n)
  {
    if n > 0 {
      MaximaLast(sc, ns, n - 1);
    }
  }

  /// The ship loop's body for one ship (agent_c.py:147-206). The best_move
  /// scan is run as written; it never changes the outcome.
  method DecideShip(sc: Scene, step: nat, pow: real) returns (choice: Choice)
    ensures choice == ShipChoice(sc, step, pow)
  {
    var cell := sc.b.cellAt(sc.ship.pos);
    var cargo := sc.ship.cargo;
    var nominees := Compass;
    var mine := true;
    var declared := false;
    choice := Act(Unset);
    if cargo as real > 1000.0 + pow || step == 399 {
      choice := Act(Convert);
      declared := true;
      mine := false;
    }
    if cell.yard.Some? && !declared {
      mine := false;
    } else if cell.halite < 30.0 {
      mine := false;
    }
    assert mine == MayMine(sc, step, pow);
    nominees, mine := Filter(sc, mine);
    if mine {
      if step == 399 {
        assert false;
      } else {
        choice := Act(Mine);
        declared := true;
      }
    } else if !declared {
      var val := -100000000.0;
      var best: seq<Dir> := [];
      for j := 0 to |nominees|
        invariant val == Top(sc, nominees, j) && best == Maxima(sc, nominees, j)
      {
        var p := Prop(sc, nominees[j]);
        if p >= val {
          val := p;
          best := best + [nominees[j]];
        }
      }
      if |best| != 1 {
        if |nominees| == 0 {
          return Crash;
        }
        choice := AnyOf(nominees);
        declared := true;
      }
    }
    if !mine && |nominees| == 0 {
      declared := true;
      choice := Act(Mine);
    }
    if !declared {
      choice := AnyOf(nominees);
    }
  }

  /// The filter loop over the moves table (agent_c.py:169-175): a -1 or -2
  /// removes the direction from nominees, and a -1 also switches mining off.
  method Filter(sc: Scene, mine0: bool) returns (nominees: seq<Dir>, mine: bool)
    ensures nominees == Nominees(sc, Compass)
    ensures mine == (mine0 && !Threatened(sc, Compass))
  {
    nominees := Compass;
    mine := mine0;
    for i := 0 to 4
      invariant nominees == Nominees(sc, Compass[..i]) + Compass[i..]
      invariant mine == (mine0 && !Threatened(sc, Compass[..i]))
    {
      var d := Compass[i];
      var p := Prop(sc, d);
      FilterStep(sc, i);
      if Blocked(p) {
        nominees := Remove(nominees, d);
        if p == -1.0 {
          mine := false;
        }
      }
    }
    assert Compass[..4] == Compass;
  }

  // ---------------------------------------------------------------------
  // The agent (agent_c.py:127-237)
  // ---------------------------------------------------------------------

  /// The shipyard spawn rule of the yard loop.
  predicate YardSpawns(me: Player, bank: int, step: nat) {
    step < 9 || (|me.ships| < 3 && bank > 3500 && step < 398)
  }

  /// The command a settled choice sends; a random choice takes the
  /// nominee choose picks.
  function ChoiceCommand(c: Choice, choose: seq<Dir> -> nat): Option<string>
    requires !c.Crash?
  {
    match c
    case Act(k) => Command(k)
    case AnyOf(ns) => if ns == [] then None else Command(Go(ns[choose(ns) % |ns|]))
  }

  /// The loop state: the board as replayed so far, whether it is still the
  /// tick's own board, and the actions set on the tick's own board; or the
  /// error raised.
  datatype Error = KeyError(key: Id) | IndexError
  datatype Loop = Going(board: Snapshot, original: bool, actions: map<Id, string>) | Failed(error: Error)

  /// Everything a tick of agent_c depends on besides the board: the step,
  /// pow(step, step / (cargo + 10)), the random choice of a nominee, and
  /// board.next() after one object's action is set.
  datatype World = World(step: nat, pow: (real, real) -> real, choose: seq<Dir> -> nat,
                         next: (Snapshot, Id, Option<string>) -> Snapshot)

  function PowFor(w: World, cargo: nat): real {
    w.pow(w.step as real, w.step as real / (cargo + 10) as real)
  }

  /// One pass of the ship loop: board.ships[Id] is looked up, the ship
  /// decides, and the board is replayed. Only an action set on the tick's
  /// own board reaches me.next_actions, since board.next() returns a new
  /// board and leaves the old one as it was.
  function ShipPass(w: World, me: Player, bank: int, l: Loop, id: Id): Loop {
    match l
    case Failed(_) => l
    case Going(board, original, actions) =>
      match ShipById(board, id)
      case None => Failed(KeyError(id))
      case Some(ship) =>
        var c := ShipChoice(Scene(board, me, bank, ship), w.step, PowFor(w, ship.cargo));
        if c.Crash? then Failed(IndexError)
        else
          var a := ChoiceCommand(c, w.choose);
          Going(w.next(board, id, a), false, if original && a.Some? then actions[id := a.value] else actions)
  }

  function ShipPasses(w: World, me: Player, bank: int, l: Loop, ids: seq<Id>): Loop {
    if ids == [] then l else ShipPass(w, me, bank, ShipPasses(w, me, bank, l, ids[..|ids| - 1]), ids[|ids| - 1])
  }

  /// One pass of the shipyard loop: board.shipyards[Id] is looked up; a
  /// spawning yard is told to SPAWN and the board is replayed.
  function YardPass(w: World, me: Player, bank: int, l: Loop, id: Id): Loop {
    match l
    case Failed(_) => l
    case Going(board, original, actions) =>
      match YardById(board, id)
      case None => Failed(KeyError(id))
      case Some(_) =>
        if YardSpawns(me, bank, w.step) then
          Going(w.next(board, id, Some("SPAWN")), false, if original then actions[id := "SPAWN"] else actions)
        else l
  }

  function YardPasses(w: World, me: Player, bank: int, l: Loop, ids: seq<Id>): Loop {
    if ids == [] then l else YardPass(w, me, bank, YardPasses(w, me, bank, l, ids[..|ids| - 1]), ids[|ids| - 1])
  }

  /// The two fallbacks: with no ships the first shipyard spawns (unless it
  /// is step 399); with no shipyards the middle ship converts.
  function Fallbacks(me: Player, step: nat, actions: map<Id, string>): map<Id, string> {
    var a := if |me.ships| == 0 && |me.yards| > 0 && step != 399 then actions[me.yards[0].id := "SPAWN"] else actions;
    if |me.yards| == 0 && |me.ships| > 0 then a[me.ships[|me.ships| / 2].id := "CONVERT"] else a
  }



  datatype Outcome = Returned(actions: map<Id, string>) | Raised(error: Error)

  /// What agent returns for board b, or the error it raises.
  function Agent(w: World, b: Snapshot): Outcome {
    var me := b.me;
    var ships := ShipPasses(w, me, me.halite, Going(b, true, map[]), IdList(me.ships, ShipId));
    if ships.Failed? then Raised(ships.error)
    else
      match YardPasses(w, me, me.halite, ships, IdList(me.yards, YardId))
      case Failed(e) => Raised(e)
      case Going(_, _, actions) => Returned(Fallbacks(me, w.step, actions))
  }

  /// After the first ship the board is never the tick's own again, and no
  /// later ship's action is kept.
  lemma {:induction false} ShipPassesSpec(w: World, me: Player, bank: int, b: Snapshot, ids: seq<Id>)
    ensures var l := ShipPasses(w, me, bank, Going(b, true, map[]), ids);
            l.Going? ==> && (l.original <==> ids == [])
                         && (forall k | k in l.actions :: k == ids[0] && ShipCommand(l.actions[k]))
  {
    if ids != [] {
      var init := ids[..|ids| - 1];
      ShipPassesSpec(w, me, bank, b, init);
      var l := ShipPasses(w, me, bank, Going(b, true, map[]), init);
      if l.Going? && ShipById(l.board, ids[|ids| - 1]).Some? {
        var ship := ShipById(l.board, ids[|ids| - 1]).value;
        var c := ShipChoice(Scene(l.board, me, bank, ship), w.step, PowFor(w, ship.cargo));
        if !c.Crash? && ChoiceCommand(c, w.choose).Some? {
          match c
          case Act(k) => CommandIsShipCommand(k);
          case AnyOf(ns) => CommandIsShipCommand(Go(ns[w.choose(ns) % |ns|]));
        }
        if init == [] {
          assert ids[0] == ids[|ids| - 1];
        } else {
          assert init[0] == ids[0];
        }
      }
    }
  }

  /// The yard loop keeps every action it finds; it adds SPAWN only for a
  /// listed yard under the spawn rule, and only while the board is the
  /// tick's own.
  lemma {:induction false} YardPassesSpec(w: World, me: Player, bank: int, l: Loop, ids: seq<Id>)
    requires l.Going?
    ensures var r := YardPasses(w, me, bank, l, ids);
            r.Going? ==> && (forall k | k in l.actions :: k in r.actions)
                         && (forall k | k in r.actions ::
                               (k in l.actions && r.actions[k] == l.actions[k]) ||
                               (l.original && k in ids && r.actions[k] == "SPAWN" && YardSpawns(me, bank, w.step)))
                         && (r.original ==> r.actions == l.actions)
  {
    if ids != [] {
      YardPassesSpec(w, me, bank, l, ids[..|ids| - 1]);
    }
  }

  /// What agent_c returns: the first ship's move or CONVERT; SPAWN for a
  /// shipyard only when the player has no ships (the shipyard loop while the
  /// board is unreplayed, or the fallback); and CONVERT for the middle ship
  /// when the player has no shipyards.
  lemma AgentSpec(w: World, b: Snapshot, k: Id)
    ensures var o := Agent(w, b);
            o.Returned? && k in o.actions ==>
              || (|b.me.ships| > 0 && k == b.me.ships[0].id && ShipCommand(o.actions[k]))
              || (|b.me.ships| == 0 && k in YardIds(b.me) && o.actions[k] == "SPAWN")
              || (|b.me.yards| == 0 && |b.me.ships| > 0 && k == b.me.ships[|b.me.ships| / 2].id &&
                  o.actions[k] == "CONVERT")
  {
    var me := b.me;
    var ids := IdList(me.ships, ShipId);
    var yids := IdList(me.yards, YardId);
    var ships := ShipPasses(w, me, me.halite, Going(b, true, map[]), ids);
    ShipPassesSpec(w, me, me.halite, b, ids);
    var o := Agent(w, b);
    if ships.Going? && o.Returned? && k in o.actions {
      YardPassesSpec(w, me, me.halite, ships, yids);
      var r := YardPasses(w, me, me.halite, ships, yids);
      var mid := |me.ships| / 2;
      if |me.yards| == 0 && |me.ships| > 0 && k == me.ships[mid].id {
      } else if |me.ships| == 0 && |me.yards| > 0 && w.step != 399 && k == me.yards[0].id {
        assert me.yards[0] in me.yards;
      } else {
        assert k in r.actions && o.actions[k] == r.actions[k];
        if k in ships.actions && r.actions[k] == ships.actions[k] {
          assert |me.ships| > 0 && k == me.ships[0].id;
        } else {
          var i :| 0 <= i < |yids| && yids[i] == k;
          assert me.yards[i] in me.yards;
          assert ids == [];
        }
      }
    }
  }

  /// The fallbacks always land: with no ships and some shipyard the first
  /// shipyard spawns unless it is step 399, and with no shipyards and some
  /// ship the middle ship converts.
  lemma FallbackSpec(w: World, b: Snapshot)
    ensures var o := Agent(w, b);
            o.Returned? && |b.me.ships| == 0 && |b.me.yards| > 0 && w.step != 399 ==>
              b.me.yards[0].id in o.actions && o.actions[b.me.yards[0].id] == "SPAWN"
    ensures var o := Agent(w, b);
            o.Returned? && |b.me.yards| == 0 && |b.me.ships| > 0 ==>
              b.me.ships[|b.me.ships| / 2].id in o.actions && o.actions[b.me.ships[|b.me.ships| / 2].id] == "CONVERT"
  {
  }

  /// The first ship is looked up on the tick's own board, where it stands,
  /// so a KeyError never names it.
  lemma FirstShipFound(w: World, b: Snapshot)
    requires |b.me.ships| > 0
    ensures ShipPasses(w, b.me, b.me.halite, Going(b, true, map[]), [b.me.ships[0].id]) != Failed(KeyError(b.me.ships[0].id))
  {
    OwnShipFound(b, b.me.ships[0].id);
    assert [b.me.ships[0].id][..0] == [];
  }

  /// One pass of the ship loop (agent_c.py:143-209).
  method ShipStep(w: World, me: Player, bank: int, board: Snapshot, original: bool, actions: map<Id, string>, id: Id)
    returns (l: Loop)
    ensures l == ShipPass(w, me, bank, Going(board, original, actions), id)
  {
    var found := ShipById(board, id);
    if found.None? {
      return Failed(KeyError(id));
    }
    var ship := found.value;
    var choice := DecideShip(Scene(board, me, bank, ship), w.step, PowFor(w, ship.cargo));
    if choice.Crash? {
      return Failed(IndexError);
    }
    var action := ChoiceCommand(choice, w.choose);
    var kept := actions;
    if original && action.Some? {
      kept := actions[id := action.value];
    }
    l := Going(w.next(board, id, action), false, kept);
  }

  /// One pass of the shipyard loop (agent_c.py:212-224).
  method YardStep(w: World, me: Player, bank: int, board: Snapshot, original: bool, actions: map<Id, string>, id: Id)
    returns (l: Loop)
    ensures l == YardPass(w, me, bank, Going(board, original, actions), id)
  {
    var found := YardById(board, id);
    if found.None? {
      return Failed(KeyError(id));
    }
    l := Going(board, original, actions);
    if w.step < 9 {
      l := Going(w.next(board, id, Some("SPAWN")), false, if original then actions[id := "SPAWN"] else actions);
    } else if |me.ships| < 3 && bank > 3500 && w.step < 398 {
      l := Going(w.next(board, id, Some("SPAWN")), false, if original then actions[id := "SPAWN"] else actions);
    }
  }

  /// agent (agent_c.py:127-237); an error ends the tick.
  method RunAgent(w: World, b: Snapshot) returns (o: Outcome)
    ensures o == Agent(w, b)
  {
    var me := b.me;
    var bank := me.halite;
    var ids := IdList(me.ships, ShipId);
    var l := Going(b, true, map[]);
    for i := 0 to |ids|
      invariant l == ShipPasses(w, me, bank, Going(b, true, map[]), ids[..i])
    {
      assert ids[..i + 1][..i] == ids[..i];
      if l.Going? {
        l := ShipStep(w, me, bank, l.board, l.original, l.actions, ids[i]);
      }
    }
    assert ids[..|ids|] == ids;
    if l.Failed? {
      return Raised(l.error);
    }
    var ships := l;
    var yids := IdList(me.yards, YardId);
    for j := 0 to |yids|
      invariant l == YardPasses(w, me, bank, ships, yids[..j])
    {
      assert yids[..j + 1][..j] == yids[..j];
      if l.Going? {
        l := YardStep(w, me, bank, l.board, l.original, l.actions, yids[j]);
      }
    }
    assert yids[..|yids|] == yids;
    if l.Failed? {
      return Raised(l.error);
    }
    var actions := l.actions;
    if |me.ships| == 0 && |me.yards| > 0 && w.step != 399 {
      actions := actions[me.yards[0].id := "SPAWN"];
    }
    if |me.yards| == 0 && |me.ships| > 0 {
      actions := actions[me.ships[|me.ships| / 2].id := "CONVERT"];
    }
    o := Returned(actions);
  }
}
