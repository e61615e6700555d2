/// Decesion_Ship of agent_a.py and agent_b.py, and Decision_Ship of
/// current.py, as an object: it keeps the decision's setting fixed and
/// deletes keys from its move table as first_stage runs. Each method is
/// proved to compute what the matching function of Revisions describes.
module RevisionShip {
  import opened Wrappers
  import opened Board
  import opened PyDict
  import opened Survey
  import opened Grid5
  import opened Moves
  import opened Revisions

  /// The action self.moves holds under a key: the game command, or None
  /// for 'mine'.
  function Action(name: string): Option<string> {
    match KeyOf(name)
    case Some(k) => Command(k)
    case None => None
  }

  /// The inner loop of weight_moves over the entries es for one key d; the
  /// increments are summed first and added to weights[d] once, which is
  /// the same real number.
  method AddRing(s: Setting, w: Dict<string, real>, d: string, es: seq<Entry>) returns (weights: Dict<string, real>)
    requires Valid(w) && d in w.vals
    ensures weights == Put(w, d, w.vals[d] + RingSum(s, d, es))
  {
    var added := 0.0;
    for j := 0 to |es|
      invariant added == RingSum(s, d, es[..j])
    {
      var sub := es[j];
      RingSumNext(s, d, es, j);
      if Substring(d, sub.dir) {
        added := added + WeightCell(s, sub.cell);
      }
    }
    assert es[..|es|] == es;
    weights := Put(w, d, w.vals[d] + added);
  }

  class DecesionShip {
    /// The board, the ship, the step, the revision, weight_cell's factors,
    /// round(_, 3), and the grid_5 survey; fixed by the constructor.
    const s: Setting
    /// The keys of self.moves.
    var moves: set<string>

    constructor (b: Snapshot, ship: Ship, step: nat, rev: Revision, hyper: Hyper, round3: real -> real)
      ensures s == SettingOf(b, ship, step, rev, hyper, round3)
      ensures moves == AllMoves
    {
      s := SettingOf(b, ship, step, rev, hyper, round3);
      moves := AllMoves;
    }

    /// near_end's counting loop (agent_a.py:126-133, current.py:230-237).
    method NearEnd() returns (r: bool)
      ensures r == Revisions.NearEnd(s.b)
    {
      var count := 0;
      var opps := s.b.opponents;
      for i := 0 to |opps|
        invariant count == StrandedCount(s.b.me, opps[..i])
      {
        var opp := opps[i];
        if opp.halite < 500 && |opp.ships| == 0 && s.b.me.halite > opp.halite {
          count := count + 1;
        }
        assert opps[..i + 1][..i] == opps[..i];
      }
      assert opps[..|opps|] == opps;
      r := count >= 2;
    }

    /// first_stage: every deletion finds its key, so the loop never raises
    /// KeyError, and it leaves the keys Revisions.FirstStage describes.
    method FirstStage()
      requires KeyedBy(s.ring1, FirstDirs)
      requires forall j | 0 <= j < |s.ring1| :: s.ring1[j].dir in moves
      modifies this
      ensures moves == Revisions.FirstStage(s, s.ring1, old(moves))
    {
      var ring1 := s.ring1;
      for i := 0 to |ring1|
        invariant moves == Revisions.FirstStage(s, ring1[..i], old(moves))
        invariant forall j | i <= j < |ring1| :: ring1[j].dir in moves
      {
        var e := ring1[i];
        assert forall j | i < j < |ring1| :: ring1[j].dir != e.dir && ring1[j].dir != "mine" by {
          forall j | i < j < |ring1| ensures ring1[j].dir != e.dir && ring1[j].dir != "mine" {
            assert ring1[j].dir[0] == Letter(FirstDirs[j]) && e.dir[0] == Letter(FirstDirs[i]);
            assert |ring1[j].dir| == 1;
          }
        }
        if e.cell.ship.Some? {
          var o := e.cell.ship.value;
          if o.id in ShipIds(s.b.me) {
            assert e.dir in moves;
            moves := moves - {e.dir};
          } else if o.cargo < s.ship.cargo {
            assert e.dir in moves;
            moves := moves - {e.dir};
            if "mine" in moves {
              moves := moves - {"mine"};
            }
          }
        }
        assert ring1[..i + 1][..i] == ring1[..i];
      }
      assert ring1[..|ring1|] == ring1;
    }

    /// weight_moves of agent_a.py and agent_b.py after first_stage: each
    /// one-move key still in moves gets its cell's weight, then every ring
    /// 2-4 cell whose key contains it adds its own.
    method RingWeights() returns (weights: Dict<string, real>)
      ensures weights == Tabulate(s.ring1, RingKeep(moves), RingScore(s))
    {
      var ring1 := s.ring1;
      weights := Empty();
      for i := 0 to |ring1|
        invariant weights == Tabulate(ring1[..i], RingKeep(moves), RingScore(s))
      {
        weights := RingEntry(weights, ring1[i]);
        assert ring1[..i + 1][..i] == ring1[..i];
      }
      assert ring1[..|ring1|] == ring1;
    }

    /// One pass of the outer loop: a key still in moves is weighted.
    method RingEntry(w: Dict<string, real>, e: Entry) returns (weights: Dict<string, real>)
      requires Valid(w)
      ensures weights == if e.dir in moves then Put(w, e.dir, RingScore(s)(e)) else w
    {
      weights := w;
      if e.dir in moves {
        var own := WeightCell(s, e.cell);
        weights := Put(weights, e.dir, own);
        weights := AddOuter(weights, e.dir);
        PutTwice(w, e.dir, own, own + RingSum(s, e.dir, s.outer));
      }
    }

    /// The inner loops of weight_moves for one key d: every ring 2-4 cell
    /// whose key contains d adds its weight to weights[d].
    method AddOuter(w: Dict<string, real>, d: string) returns (weights: Dict<string, real>)
      requires Valid(w) && d in w.vals
      ensures weights == Put(w, d, w.vals[d] + RingSum(s, d, s.outer))
    {
      weights := AddRing(s, w, d, s.outer);
    }

    /// weight_moves of current.py after first_stage: each one-letter key
    /// still in moves gets its cell's weight; the inner loop's condition
    /// never holds, so it adds nothing.
    method FlatWeights() returns (weights: Dict<string, real>)
      ensures weights == Tabulate(s.flat, FlatKeep(moves), FlatScore(s))
    {
      var flat := s.flat;
      ghost var keep, score := FlatKeep(moves), FlatScore(s);
      weights := Empty();
      for i := 0 to |flat|
        invariant weights == Tabulate(flat[..i], keep, score)
      {
        var e := flat[i];
        if e.dir in moves && |e.dir| == 1 {
          weights := Put(weights, e.dir, WeightCell(s, e.cell));
          for j := 0 to |flat| {
            var sub := flat[j];
            InnerNever(e.dir, sub.dir);
            if Substring(e.dir, sub.dir) && e.dir != sub.dir && |sub.dir| == 1 {
              assert false;
            }
          }
        }
        assert flat[..i + 1][..i] == flat[..i];
      }
      assert flat[..|flat|] == flat;
    }

    /// weight_moves: first_stage, then the revision's weighting.
    method WeightMoves() returns (weights: Dict<string, real>)
      requires KeyedBy(s.ring1, FirstDirs) && moves == AllMoves
      modifies this
      ensures moves == Revisions.FirstStage(s, s.ring1, AllMoves)
      ensures weights == Weights(s, moves)
    {
      forall j | 0 <= j < |s.ring1| ensures s.ring1[j].dir in moves {
        assert s.ring1[j].dir == [Letter(FirstDirs[j])];
      }
      FirstStage();
      if s.rev == Current {
        weights := FlatWeights();
      } else {
        weights := RingWeights();
      }
    }

    /// The convert short-circuits at the head of determine.
    method ConvertNow() returns (r: bool)
      ensures r == ConvertFirst(s)
    {
      if |s.b.me.yards| == 0 {
        return true;
      }
      var cargo := s.ship.cargo;
      match s.rev
      case AgentB =>
        r := (s.step > 393 && cargo >= 500) || cargo > 2500;
      case AgentA =>
        var late := s.step >= 395;
        if !late {
          late := NearEnd();
        }
        r := (late && cargo > 500) || cargo > 1500;
      case Current =>
        var late := s.step > 395;
        if !late {
          late := NearEnd();
        }
        r := (late && cargo >= 500) || cargo > 2500;
    }

    /// determine: the key whose action is returned, and that action; or the
    /// key whose lookup raises KeyError, with no action.
    method Determine() returns (verdict: Verdict, action: Option<string>)
      requires KeyedBy(s.ring1, FirstDirs) && moves == AllMoves
      modifies this
      ensures verdict == Revisions.Determine(s)
      ensures action == (if verdict.Pick? then Action(verdict.key) else None)
    {
      var convert := ConvertNow();
      if convert {
        verdict := Pick("convert");
      } else {
        var weights := WeightMoves();
        if |weights.keys| == 0 {
          if "mine" in moves {
            verdict := Pick("mine");
          } else {
            verdict := Missing("mine");
          }
        } else {
          var best := FirstMax(weights.keys, weights.vals).value;
          if "mine" in moves && ShipHalite(s) > weights.vals[best] {
            verdict := Pick("mine");
          } else {
            verdict := Pick(best);
          }
        }
      }
      action := if verdict.Pick? then Action(verdict.key) else None;
    }
  }
}
