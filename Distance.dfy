/// The two board distances the bot computes: measure_distance of mod.py and
/// count_moves of current.py, next to the true number of moves between two
/// cells of the 21x21 torus.
module Distance {
  import opened Board

  function Abs(v: int): nat {
    if v < 0 then -v else v
  }

  function Min(a: int, b: int): int {
    if a <= b then a else b
  }

  /// Smallest of four values, as Python's min(a, b, c, d).
  function Min4(a: int, b: int, c: int, d: int): (r: int)
    ensures r <= a && r <= b && r <= c && r <= d
    ensures r == a || r == b || r == c || r == d
  {
    Min(Min(Min(a, b), c), d)
  }

  /// The number of moves between two coordinates on one axis of the torus.
  function TorusAxis(o: int, d: int): nat
    requires 0 <= o < Size && 0 <= d < Size
  {
    Min(Abs(o - d), Size - Abs(o - d)) as nat
  }

  /// The fewest moves that take a ship from org to dest.
  function TorusDistance(org: Pos, dest: Pos): nat
    requires OnBoard(org) && OnBoard(dest)
  {
    TorusAxis(org.x, dest.x) + TorusAxis(org.y, dest.y)
  }

  /// measure_distance: the smallest of the four sums of a direct and a
  /// wrapped term per axis; the wrapped term only wraps one way.
  function MeasureDistance(org: Pos, dest: Pos): int
  {
    var x1 := Abs(org.x - dest.x);
    var x2 := Abs(Size - org.x + dest.x);
    var y1 := Abs(org.y - dest.y);
    var y2 := Abs(Size - org.y + dest.y);
    Min4(x1 + y1, x1 + y2, x2 + y1, x2 + y2)
  }

  /// The distance from a cell to itself is 0, every distance is non-negative
  /// and never more than the straight-line step count.
  lemma MeasureDistanceBounds(org: Pos, dest: Pos)
    ensures MeasureDistance(org, org) == 0
    ensures 0 <= MeasureDistance(org, dest) <= Abs(org.x - dest.x) + Abs(org.y - dest.y)
    ensures var x1, x2 := Abs(org.x - dest.x), Abs(Size - org.x + dest.x);
            var y1, y2 := Abs(org.y - dest.y), Abs(Size - org.y + dest.y);
            MeasureDistance(org, dest) in {x1 + y1, x1 + y2, x2 + y1, x2 + y2}
  {
  }

  /// On one axis the measure is the direct difference when dest lies at or
  /// after org, and the torus axis distance when dest lies before org.
  function AxisMeasure(o: int, d: int): int {
    Min(Abs(o - d), Abs(Size - o + d))
  }

  lemma MeasureByAxes(org: Pos, dest: Pos)
    ensures MeasureDistance(org, dest) == AxisMeasure(org.x, dest.x) + AxisMeasure(org.y, dest.y)
  {
  }

  lemma AxisMeasureOnBoard(o: int, d: int)
    requires 0 <= o < Size && 0 <= d < Size
    ensures d >= o ==> AxisMeasure(o, d) == d - o
    ensures d < o ==> AxisMeasure(o, d) == TorusAxis(o, d)
  {
  }

  /// measure_distance never undershoots the true move count, and it is the
  /// true move count exactly when, on each axis, dest lies before org or at
  /// most half the board after it.
  lemma MeasureAgainstTorus(org: Pos, dest: Pos)
    requires OnBoard(org) && OnBoard(dest)
    ensures MeasureDistance(org, dest) >= TorusDistance(org, dest)
    ensures MeasureDistance(org, dest) == TorusDistance(org, dest) <==>
              (dest.x <= org.x || dest.x - org.x <= Size / 2) &&
              (dest.y <= org.y || dest.y - org.y <= Size / 2)
  {
    MeasureByAxes(org, dest);
    AxisMeasureOnBoard(org.x, dest.x);
    AxisMeasureOnBoard(org.y, dest.y);
  }

  /// The measure is not symmetric: one column apart across the wrap is 20
  /// one way and 1 the other.
  lemma MeasureAsymmetric()
    ensures MeasureDistance(Pos(0, 0), Pos(20, 0)) == 20
    ensures MeasureDistance(Pos(20, 0), Pos(0, 0)) == 1
  {
  }

  /// count_moves of current.py: the smallest of four sums in which the
  /// wrapped y term never appears and two sums count an x term twice.
  function CountMoves(p1: Pos, p2: Pos): int
  {
    var dx1 := Abs(p2.x - p1.x);
    var dx2 := Abs(Size + p2.x - p1.x);
    var dy1 := Abs(p2.y - p1.y);
    Min4(dx1 + dy1, dx1 + dx2, dx2 + dy1, dx2 + dx2)
  }

  lemma CountMovesBounds(p1: Pos, p2: Pos)
    ensures CountMoves(p1, p1) == 0
    ensures 0 <= CountMoves(p1, p2) <= Abs(p2.x - p1.x) + Abs(p2.y - p1.y)
  {
  }

  /// However many rows apart the two points are, count_moves never exceeds
  /// twice the wrapped x term: the row distance can always be skipped.
  lemma CountMovesCappedByColumns(p1: Pos, p2: Pos)
    ensures CountMoves(p1, p2) <= 2 * Abs(Size + p2.x - p1.x)
  {
  }

  /// count_moves can report fewer moves than any path needs: from (20, 0)
  /// to (0, 10) it says 2, while 11 moves are needed.
  lemma CountMovesUndercounts()
    ensures CountMoves(Pos(20, 0), Pos(0, 10)) == 2
    ensures TorusDistance(Pos(20, 0), Pos(0, 10)) == 11
  {
  }
}
