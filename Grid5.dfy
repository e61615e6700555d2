/// grid_5 of agent_a.py, agent_b.py and current.py: the cells one to four
/// moves from a ship, in four rings keyed by the moves that reach them.
/// agent_a.py and agent_b.py keep the rings apart under the keys '1' to '4';
/// current.py lists the same entries in one flat dictionary.
module Grid5 {
  import opened Board
  import opened PyDict
  import opened Survey

  /// The (key, path) pairs of each ring, in the order the source lists them
  /// (agent_b.py:168-177, current.py:447-451): the key spells the moves,
  /// the path is the chain of cell.north/south/east/west the cell is read
  /// through.
  const Ring5One: seq<(Word, Word)> :=
    [(One(N, 1), One(N, 1)), (One(S, 1), One(S, 1)), (One(W, 1), One(W, 1)), (One(E, 1), One(E, 1))]

  const Ring5Two: seq<(Word, Word)> :=
    [(Two(N, 1, W, 1), Two(N, 1, W, 1)), (Two(N, 1, E, 1), Two(N, 1, E, 1)),
     (Two(S, 1, W, 1), Two(S, 1, W, 1)), (Two(S, 1, E, 1), Two(S, 1, E, 1)),
     (One(W, 2), One(W, 2)), (One(E, 2), One(E, 2)), (One(N, 2), One(N, 2)), (One(S, 2), One(S, 2))]

  const Ring5Three: seq<(Word, Word)> := Ring5ThreeRuns + Ring5ThreeTurns

  /// 'NEN', 'NWN', 'SES', 'SWS': two moves one way, then one sideways.
  const Ring5ThreeRuns: seq<(Word, Word)> :=
    [(Around(N, E, 1), Two(N, 2, E, 1)), (Around(N, W, 1), Two(N, 2, W, 1)),
     (Around(S, E, 1), Two(S, 2, E, 1)), (Around(S, W, 1), Two(S, 2, W, 1))]

  /// 'SEE', 'NEE', 'SWW', 'NWW': two moves east or west, then one sideways.
  const Ring5ThreeTurns: seq<(Word, Word)> :=
    [(Two(S, 1, E, 2), Two(E, 2, S, 1)), (Two(N, 1, E, 2), Two(E, 2, N, 1)),
     (Two(S, 1, W, 2), Two(W, 2, S, 1)), (Two(N, 1, W, 2), Two(W, 2, N, 1))]

  const Ring5Four: seq<(Word, Word)> :=
    [(Around(S, E, 2), Two(E, 2, S, 2)), (Around(N, E, 2), Two(E, 2, N, 2)),
     (Around(N, W, 2), Two(W, 2, N, 2)), (Around(S, W, 2), Two(W, 2, S, 2))]

  /// The pairs of ring k.
  function RingPairs(k: nat): seq<(Word, Word)>
    requires 1 <= k <= 4
  {
    if k == 1 then Ring5One else if k == 2 then Ring5Two else if k == 3 then Ring5Three else Ring5Four
  }

  /// Ring k as the dictionary the literal builds.
  function RingDict(k: nat): Dict<Word, Word>
    requires 1 <= k <= 4
  {
    FromPairs(RingPairs(k))
  }

  /// grid["k"] of agent_a.py and agent_b.py: ring k around origin.
  function Ring(b: Snapshot, origin: Pos, k: nat): seq<Entry>
    requires 1 <= k <= 4
  {
    Surveyed(RingDict(k), b, origin)
  }

  /// grid_5 of current.py: the four rings in one dictionary.
  const FlatPairs: seq<(Word, Word)> := Ring5One + Ring5Two + Ring5Three + Ring5Four

  function Flat(b: Snapshot, origin: Pos): seq<Entry> {
    Surveyed(FromPairs(FlatPairs), b, origin)
  }

  /// A pair whose path takes the same moves as its key, the key being k
  /// moves long.
  predicate Fits(e: (Word, Word), k: nat) {
    Follows(e) && |Route(e.0)| == k
  }

  predicate KeysDistinct(ps: seq<(Word, Word)>) {
    forall i, j | 0 <= i < j < |ps| :: ps[i].0 != ps[j].0
  }

  predicate FollowAll(ps: seq<(Word, Word)>) {
    forall i | 0 <= i < |ps| :: Follows(ps[i])
  }

  predicate LengthAll(ps: seq<(Word, Word)>, k: nat) {
    forall i | 0 <= i < |ps| :: |Route(ps[i].0)| == k
  }

  /// Every pair of ps fits k, and no key is listed twice.
  predicate RingOk(ps: seq<(Word, Word)>, k: nat) {
    (forall i | 0 <= i < |ps| :: Fits(ps[i], k)) && KeysDistinct(ps)
  }

  lemma Ring5OneFollow()
    ensures FollowAll(Ring5One)
  {
  }

  lemma Ring5OneLength()
    ensures LengthAll(Ring5One, 1)
  {
  }

  lemma Ring5OneDistinct()
    ensures KeysDistinct(Ring5One)
  {
  }

  lemma Ring5OneOk()
    ensures RingOk(Ring5One, 1)
  {
    Ring5OneFollow();
    Ring5OneLength();
    Ring5OneDistinct();
  }

  lemma Ring5TwoFollow()
    ensures FollowAll(Ring5Two)
  {
  }

  lemma Ring5TwoLength()
    ensures LengthAll(Ring5Two, 2)
  {
  }

  lemma Ring5TwoDistinct()
    ensures KeysDistinct(Ring5Two)
  {
  }

  lemma Ring5TwoOk()
    ensures RingOk(Ring5Two, 2)
  {
    Ring5TwoFollow();
    Ring5TwoLength();
    Ring5TwoDistinct();
  }

  lemma Ring5ThreeFollow()
    ensures FollowAll(Ring5Three)
  {
    Ring5ThreeRunsFollow();
    Ring5ThreeTurnsFollow();
    FollowAllAppend(Ring5ThreeRuns, Ring5ThreeTurns);
  }

  lemma FollowAllAppend(a: seq<(Word, Word)>, b: seq<(Word, Word)>)
    requires FollowAll(a) && FollowAll(b)
    ensures FollowAll(a + b)
  {
    forall i | 0 <= i < |a + b| ensures Follows((a + b)[i]) {
      if i < |a| { assert (a + b)[i] == a[i]; } else { assert (a + b)[i] == b[i - |a|]; }
    }
  }

  lemma Ring5ThreeRunsFollow()
    ensures FollowAll(Ring5ThreeRuns)
  {
    FollowsRun(N, E);
    FollowsRun(N, W);
    FollowsRun(S, E);
    FollowsRun(S, W);
    FollowAllFour(Ring5ThreeRuns);
  }

  lemma Ring5ThreeTurnsFollow()
    ensures FollowAll(Ring5ThreeTurns)
  {
    FollowsTurn(S, E);
    FollowsTurn(N, E);
    FollowsTurn(S, W);
    FollowsTurn(N, W);
    FollowAllFour(Ring5ThreeTurns);
  }

  /// Four pairs that each follow their keys.
  lemma FollowAllFour(ps: seq<(Word, Word)>)
    requires |ps| == 4
    requires Follows(ps[0]) && Follows(ps[1]) && Follows(ps[2]) && Follows(ps[3])
    ensures FollowAll(ps)
  {
  }

  /// The ring-three key a, b, a reaches the cell two moves a, then one
  /// move b, reach.
  lemma FollowsRun(a: Dir, b: Dir)
    ensures Follows((Around(a, b, 1), Two(a, 2, b, 1)))
  {
  }

  /// The ring-three key a, b, b reaches the cell two moves b, then one
  /// move a, reach.
  lemma FollowsTurn(a: Dir, b: Dir)
    ensures Follows((Two(a, 1, b, 2), Two(b, 2, a, 1)))
  {
  }

  lemma Ring5ThreeLength()
    ensures LengthAll(Ring5Three, 3)
  {
  }

  lemma Ring5ThreeDistinct()
    ensures KeysDistinct(Ring5Three)
  {
  }

  lemma Ring5ThreeOk()
    ensures RingOk(Ring5Three, 3)
  {
    Ring5ThreeFollow();
    Ring5ThreeLength();
    Ring5ThreeDistinct();
  }

  lemma Ring5FourFollow()
    ensures FollowAll(Ring5Four)
  {
    FollowsCorner(S, E);
    FollowsCorner(N, E);
    FollowsCorner(N, W);
    FollowsCorner(S, W);
    FollowAllFour(Ring5Four);
  }

  /// The ring-four key around the corner of a and b reaches the cell that
  /// two moves b, then two moves a, reach.
  lemma FollowsCorner(a: Dir, b: Dir)
    ensures Follows((Around(a, b, 2), Two(b, 2, a, 2)))
  {
  }

  lemma Ring5FourLength()
    ensures LengthAll(Ring5Four, 4)
  {
  }

  lemma Ring5FourDistinct()
    ensures KeysDistinct(Ring5Four)
  {
  }

  lemma Ring5FourOk()
    ensures RingOk(Ring5Four, 4)
  {
    Ring5FourFollow();
    Ring5FourLength();
    Ring5FourDistinct();
  }

  lemma RingPairsFit(k: nat)
    requires 1 <= k <= 4
    ensures |RingPairs(k)| == (if k == 1 || k == 4 then 4 else 8)
    ensures RingOk(RingPairs(k), k)
  {
    if k == 1 { Ring5OneOk(); }
    else if k == 2 { Ring5TwoOk(); }
    else if k == 3 { Ring5ThreeOk(); }
    else { Ring5FourOk(); }
  }

  /// The pair behind entry i of a survey of a literal with distinct keys.
  lemma SurveyedPair(ps: seq<(Word, Word)>, b: Snapshot, origin: Pos, i: nat)
    requires KeysDistinct(ps) && OnBoard(origin) && i < |ps|
    requires Follows(ps[i])
    ensures |Surveyed(FromPairs(ps), b, origin)| == |ps|
    ensures Surveyed(FromPairs(ps), b, origin)[i].dir == Spell(ps[i].0)
    ensures Surveyed(FromPairs(ps), b, origin)[i].cell == b.cellAt(Walk(origin, Route(ps[i].0)))
  {
    FromPairsDistinct(ps);
    var key, path := ps[i].0, ps[i].1;
    assert Surveyed(FromPairs(ps), b, origin)[i].cell == b.cellAt(Walk(origin, Route(path)));
    WalkWord(origin, key);
    WalkWord(origin, path);
  }

  /// Ring k holds 4, 8, 8 and 4 cells for k = 1 to 4; each key is k letters
  /// long and its cell is the one reached by taking the key's moves in order.
  lemma RingShape(b: Snapshot, origin: Pos, k: nat, i: nat)
    requires OnBoard(origin) && 1 <= k <= 4 && i < |RingPairs(k)|
    ensures |Ring(b, origin, k)| == (if k == 1 || k == 4 then 4 else 8)
    ensures |Ring(b, origin, k)[i].dir| == k
    ensures var key := RingPairs(k)[i].0;
            && Ring(b, origin, k)[i].dir == Spell(key)
            && Ring(b, origin, k)[i].cell == b.cellAt(Walk(origin, Route(key)))
  {
    RingPairsFit(k);
    SurveyedPair(RingPairs(k), b, origin, i);
  }

  /// Pairs with distinct keys whose paths follow their keys.
  predicate Layered(ps: seq<(Word, Word)>) {
    FollowAll(ps) && KeysDistinct(ps)
  }

  /// Every key of ps is between lo and hi moves long.
  predicate Lengths(ps: seq<(Word, Word)>, lo: nat, hi: nat) {
    forall i | 0 <= i < |ps| :: lo <= |Route(ps[i].0)| <= hi
  }

  lemma RingLayered(ps: seq<(Word, Word)>, k: nat)
    requires RingOk(ps, k)
    ensures Layered(ps) && Lengths(ps, k, k)
  {
  }

  /// Two layered literals stay layered when joined, provided every key of
  /// the first is shorter than every key of the second.
  lemma JoinLayers(a: seq<(Word, Word)>, b: seq<(Word, Word)>, lo: nat, mid: nat, hi: nat)
    requires Layered(a) && Layered(b)
    requires lo < mid <= hi
    requires Lengths(a, lo, mid - 1) && Lengths(b, mid, hi)
    ensures Layered(a + b) && Lengths(a + b, lo, hi)
  {
    var ab := a + b;
    forall i, j | 0 <= i < j < |ab| ensures ab[i].0 != ab[j].0 {
      if j < |a| {
        assert ab[i] == a[i] && ab[j] == a[j];
      } else if i >= |a| {
        assert ab[i] == b[i - |a|] && ab[j] == b[j - |a|];
      } else {
        assert ab[i] == a[i] && ab[j] == b[j - |a|];
      }
    }
    forall i | 0 <= i < |ab| ensures Follows(ab[i]) && lo <= |Route(ab[i].0)| <= hi {
      if i < |a| { assert ab[i] == a[i]; } else { assert ab[i] == b[i - |a|]; }
    }
  }

  /// Rings two to four of the flat dictionary.
  const Outer: seq<(Word, Word)> := Ring5Two + Ring5Three + Ring5Four

  lemma OuterLayered()
    ensures |Outer| == 20 && Layered(Outer) && Lengths(Outer, 2, 4)
  {
    Ring5TwoOk(); Ring5ThreeOk(); Ring5FourOk();
    RingLayered(Ring5Two, 2);
    RingLayered(Ring5Three, 3);
    RingLayered(Ring5Four, 4);
    JoinLayers(Ring5Two, Ring5Three, 2, 3, 3);
    JoinLayers(Ring5Two + Ring5Three, Ring5Four, 2, 4, 4);
  }

  lemma FlatPairsFit()
    ensures |FlatPairs| == 24
    ensures Layered(FlatPairs)
    ensures forall i | 0 <= i < 24 :: (|Route(FlatPairs[i].0)| == 1) == (i < 4)
  {
    Ring5OneOk();
    RingLayered(Ring5One, 1);
    OuterLayered();
    assert FlatPairs == Ring5One + Outer;
    JoinLayers(Ring5One, Outer, 1, 2, 4);
    forall i | 0 <= i < 24 ensures (|Route(FlatPairs[i].0)| == 1) == (i < 4) {
      if i < 4 { assert FlatPairs[i] == Ring5One[i]; } else { assert FlatPairs[i] == Outer[i - 4]; }
    }
  }

  /// current.py's flat grid_5: 24 entries; the first four are the one-move
  /// cells N, S, W, E and every later key is longer than one letter; each
  /// cell is the one its key's moves lead to.
  lemma FlatShape(b: Snapshot, origin: Pos, i: nat)
    requires OnBoard(origin) && i < 24
    ensures |Flat(b, origin)| == 24
    ensures (|Flat(b, origin)[i].dir| == 1) == (i < 4)
    ensures Flat(b, origin)[i].dir == Spell(FlatPairs[i].0)
    ensures Flat(b, origin)[i].cell == b.cellAt(Walk(origin, Route(FlatPairs[i].0)))
  {
    FlatPairsFit();
    SurveyedPair(FlatPairs, b, origin, i);
  }

  /// The directions of the one-move ring, in the order listed.
  const FirstDirs: seq<Dir> := [N, S, W, E]

  lemma SpellOne(d: Dir)
    ensures Spell(One(d, 1)) == [Letter(d)]
    ensures Route(One(d, 1)) == [d]
  {
    assert Route(One(d, 1)) == [d];
  }

  /// The one-move ring lists N, S, W, E in that order, each the cell one
  /// step away in its direction.
  lemma FirstRing(b: Snapshot, origin: Pos, i: nat)
    requires OnBoard(origin) && i < 4
    ensures |Ring(b, origin, 1)| == 4
    ensures Ring(b, origin, 1)[i] == Entry([Letter(FirstDirs[i])], b.cellAt(Step(origin, FirstDirs[i])))
  {
    var d := FirstDirs[i];
    assert RingPairs(1)[i].0 == One(d, 1);
    RingShape(b, origin, 1, i);
    SpellOne(d);
    assert Walk(origin, [d]) == Walk(Step(origin, d), []);
  }
}
