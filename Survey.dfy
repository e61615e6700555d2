/// The survey tables: the key -> cell dictionaries that the bot builds around
/// a cell. mod.py's `grid` lists 220 entries up to ten moves away; the other
/// revisions use `grid_5`, 24 entries up to four moves away. Every key and
/// every path in them is a run of one compass letter, possibly followed by a
/// run of another and, in `grid_5`, by the first letter again, so both are
/// represented as a `Word` and spelled out on demand.
module Survey {
  import opened Wrappers
  import opened Board
  import opened PyDict

  /// The string a^n b^m a^k.
  datatype Word = Word(a: Dir, n: nat, b: Dir, m: nat, k: nat)

  function One(a: Dir, n: nat): Word { Word(a, n, a, 0, 0) }
  function Two(a: Dir, n: nat, b: Dir, m: nat): Word { Word(a, n, b, m, 0) }
  function Around(a: Dir, b: Dir, m: nat): Word { Word(a, 1, b, m, 1) }

  /// c repeated n times.
  function Rep<T>(c: T, n: nat): (s: seq<T>)
    ensures |s| == n
  {
    if n == 0 then [] else [c] + Rep(c, n - 1)
  }

  /// The steps a word takes.
  function Route(w: Word): seq<Dir> {
    Rep(w.a, w.n) + Rep(w.b, w.m) + Rep(w.a, w.k)
  }

  /// The string a word stands for, as the source writes its keys.
  function Spell(w: Word): (s: string)
    ensures |s| == |Route(w)|
  {
    Letters(Route(w))
  }

  function Letters(r: seq<Dir>): (s: string)
    ensures |s| == |r|
    ensures forall i | 0 <= i < |r| :: s[i] == Letter(r[i])
  {
    seq(|r|, i requires 0 <= i < |r| => Letter(r[i]))
  }

  /// Spelling loses nothing: equal spellings come from equal routes.
  lemma LettersInjective(r: seq<Dir>, t: seq<Dir>)
    requires Letters(r) == Letters(t)
    ensures r == t
  {
    forall i | 0 <= i < |r| ensures r[i] == t[i] {
      LetterInjective(r[i], t[i]);
    }
  }

  /// A letter occurs in a spelling iff its direction occurs in the route.
  lemma LetterInLetters(r: seq<Dir>, d: Dir)
    ensures Letter(d) in Letters(r) <==> d in r
  {
    if Letter(d) in Letters(r) {
      var i :| 0 <= i < |r| && Letters(r)[i] == Letter(d);
      LetterInjective(r[i], d);
    }
    if d in r {
      var i :| 0 <= i < |r| && r[i] == d;
      assert Letters(r)[i] == Letter(d);
    }
  }

  /// How far len steps towards c move along the axis from minus to plus.
  function Along(c: Dir, plus: Dir, minus: Dir, len: nat): int {
    if c == plus then len else if c == minus then -(len as int) else 0
  }

  /// The net east-west and north-south displacement of following a word.
  function ShiftX(w: Word): int {
    Along(w.a, E, W, w.n + w.k) + Along(w.b, E, W, w.m)
  }

  function ShiftY(w: Word): int {
    Along(w.a, N, S, w.n + w.k) + Along(w.b, N, S, w.m)
  }

  lemma {:induction false} CountRep<T>(c: T, n: nat, d: T)
    ensures Count(Rep(c, n), d) == if c == d then n else 0
  {
    if n > 0 {
      CountRep(c, n - 1, d);
      assert Rep(c, n)[1..] == Rep(c, n - 1);
    }
  }

  /// How many steps of a word go in direction d.
  lemma CountRoute(w: Word, d: Dir)
    ensures Count(Route(w), d) == (if w.a == d then w.n + w.k else 0) + (if w.b == d then w.m else 0)
  {
    CountAppend(Rep(w.a, w.n) + Rep(w.b, w.m), Rep(w.a, w.k), d);
    CountAppend(Rep(w.a, w.n), Rep(w.b, w.m), d);
    CountRep(w.a, w.n, d);
    CountRep(w.b, w.m, d);
    CountRep(w.a, w.k, d);
  }

  lemma {:induction false} SumRep(c: Dir, n: nat)
    ensures SumX(Rep(c, n)) == Along(c, E, W, n)
    ensures SumY(Rep(c, n)) == Along(c, N, S, n)
  {
    if n > 0 {
      SumRep(c, n - 1);
      assert Rep(c, n)[1..] == Rep(c, n - 1);
    }
  }

  lemma SumRoute(w: Word)
    ensures SumX(Route(w)) == ShiftX(w)
    ensures SumY(Route(w)) == ShiftY(w)
  {
    SumAppend(Rep(w.a, w.n) + Rep(w.b, w.m), Rep(w.a, w.k));
    SumAppend(Rep(w.a, w.n), Rep(w.b, w.m));
    SumRep(w.a, w.n);
    SumRep(w.b, w.m);
    SumRep(w.a, w.k);
    SumRep(w.a, w.n + w.k);
  }

  /// The cell a word's net displacement leads to from origin.
  function Reach(origin: Pos, w: Word): Pos {
    Shift(origin, ShiftX(w), ShiftY(w))
  }

  /// Following a word's steps one by one lands where its net displacement
  /// says.
  lemma WalkWord(p: Pos, w: Word)
    requires OnBoard(p)
    ensures Walk(p, Route(w)) == Reach(p, w)
  {
    WalkBySums(p, Route(w));
    SumRoute(w);
  }

  /// The letter of a direction occurs in a spelled word iff one of the
  /// word's non-empty runs goes that way; this is Python's `Dir in sub_Dir`
  /// for a one-letter Dir.
  lemma LetterInWord(w: Word, d: Dir)
    ensures Letter(d) in Spell(w) <==> (d == w.a && w.n + w.k > 0) || (d == w.b && w.m > 0)
  {
    CountRoute(w, d);
    CountPositive(Route(w), d);
    LetterInLetters(Route(w), d);
  }

  /// A two-run key written the one way it is spelled: a first run of at least
  /// one letter, and a second run only of a different letter.
  predicate TwoRun(w: Word) {
    w.n >= 1 && w.k == 0 && (if w.m == 0 then w.b == w.a else w.b != w.a)
  }

  /// The length of the run of c that s starts with.
  function Lead<T(==)>(s: seq<T>, c: T): nat {
    if s == [] || s[0] != c then 0 else 1 + Lead(s[1..], c)
  }

  lemma {:induction false} LeadRep<T>(c: T, n: nat, t: seq<T>)
    requires t == [] || t[0] != c
    ensures Lead(Rep(c, n) + t, c) == n
  {
    if n > 0 {
      assert (Rep(c, n) + t)[1..] == Rep(c, n - 1) + t;
      LeadRep(c, n - 1, t);
    } else {
      assert Rep(c, n) + t == t;
    }
  }

  /// Different two-run words spell different strings, so keying the survey
  /// by words is keying it by the source's strings.
  lemma SpellInjective(u: Word, v: Word)
    requires TwoRun(u) && TwoRun(v)
    requires Spell(u) == Spell(v)
    ensures u == v
  {
    var r := Route(u);
    LettersInjective(r, Route(v));
    assert r == Rep(u.a, u.n) + Rep(u.b, u.m) && r == Rep(v.a, v.n) + Rep(v.b, v.m);
    assert r[0] == u.a && r[0] == v.a;
    LeadRep(u.a, u.n, Rep(u.b, u.m));
    LeadRep(v.a, v.n, Rep(v.b, v.m));
    if u.m > 0 {
      assert r[u.n] == u.b && r[v.n] == v.b;
    }
  }

  // ---------------------------------------------------------------------
  // mod.py's grid: the literal dictionary of mod.py:473-537, as (key, path)
  // pairs, where the path is the chain of cell.north/south/east/west the
  // source binds to the key.
  // ---------------------------------------------------------------------

  // 1 move away
  const Line475: seq<(Word, Word)> := [(One(N, 1), One(N, 1)), (One(S, 1), One(S, 1)), (One(W, 1), One(W, 1)), (One(E, 1), One(E, 1))]

  // 2 moves away
  const Line477: seq<(Word, Word)> := [(Two(N, 1, W, 1), Two(N, 1, W, 1)), (Two(N, 1, E, 1), Two(N, 1, E, 1)), (Two(S, 1, W, 1), Two(S, 1, W, 1)), (Two(S, 1, E, 1), Two(S, 1, E, 1)), (One(W, 2), One(W, 2)), (One(E, 2), One(E, 2)), (One(N, 2), One(N, 2)), (One(S, 2), One(S, 2))]

  // 3 moves away
  const Line479: seq<(Word, Word)> := [(One(S, 3), One(S, 3)), (One(E, 3), One(E, 3)), (One(W, 3), One(W, 3)), (One(N, 3), One(N, 3))]
  const Line480: seq<(Word, Word)> := [(Two(E, 1, N, 2), Two(N, 2, E, 1)), (Two(W, 1, N, 2), Two(N, 2, W, 1)), (Two(E, 1, S, 2), Two(S, 2, E, 1)), (Two(W, 1, S, 2), Two(S, 2, W, 1))]
  const Line481: seq<(Word, Word)> := [(Two(S, 1, E, 2), Two(E, 2, S, 1)), (Two(N, 1, E, 2), Two(E, 2, N, 1)), (Two(S, 1, W, 2), Two(W, 2, S, 1)), (Two(N, 1, W, 2), Two(W, 2, N, 1))]

  // 4 moves away
  const Line483: seq<(Word, Word)> := [(One(N, 4), One(N, 4)), (One(S, 4), One(S, 4)), (One(W, 4), One(W, 4)), (One(E, 4), One(E, 4))]
  const Line484: seq<(Word, Word)> := [(Two(E, 2, S, 2), Two(E, 2, S, 2)), (Two(E, 2, N, 2), Two(E, 2, N, 2)), (Two(W, 2, N, 2), Two(W, 2, N, 2)), (Two(W, 2, S, 2), Two(W, 2, S, 2))]
  const Line485: seq<(Word, Word)> := [(Two(W, 3, S, 1), Two(W, 3, S, 1)), (Two(E, 3, S, 1), Two(E, 3, S, 1)), (Two(E, 3, N, 1), Two(E, 3, N, 1)), (Two(W, 3, N, 1), Two(W, 3, N, 1))]
  const Line486: seq<(Word, Word)> := [(Two(S, 3, W, 1), Two(S, 3, W, 1)), (Two(S, 3, E, 1), Two(S, 3, E, 1)), (Two(N, 3, E, 1), Two(N, 3, E, 1)), (Two(N, 3, W, 1), Two(N, 3, W, 1))]

  // 5 moves away
  const Line488: seq<(Word, Word)> := [(One(S, 5), One(S, 5)), (One(N, 5), One(N, 5)), (One(W, 5), One(W, 5)), (One(E, 5), One(E, 5))]
  const Line489: seq<(Word, Word)> := [(Two(W, 4, N, 1), Two(W, 4, N, 1)), (Two(W, 4, S, 1), Two(W, 4, S, 1)), (Two(E, 4, N, 1), Two(E, 4, N, 1)), (Two(E, 4, S, 1), Two(E, 4, S, 1))]
  const Line490: seq<(Word, Word)> := [(Two(S, 4, E, 1), Two(S, 4, E, 1)), (Two(S, 4, W, 1), Two(S, 4, W, 1)), (Two(N, 4, W, 1), Two(N, 4, W, 1)), (Two(N, 4, E, 1), Two(N, 4, E, 1))]
  const Line491: seq<(Word, Word)> := [(Two(E, 2, S, 3), Two(S, 3, E, 2)), (Two(W, 2, S, 3), Two(S, 3, W, 2)), (Two(E, 2, N, 3), Two(N, 3, E, 2)), (Two(W, 2, N, 3), Two(N, 3, W, 2))]
  const Line492: seq<(Word, Word)> := [(Two(E, 3, S, 2), Two(E, 3, S, 2)), (Two(E, 3, N, 2), Two(E, 3, N, 2)), (Two(W, 3, S, 2), Two(W, 3, S, 2)), (Two(W, 3, N, 2), Two(W, 3, N, 2))]

  // 6 moves away
  const Line494: seq<(Word, Word)> := [(One(S, 6), One(S, 6)), (One(N, 6), One(N, 6)), (One(W, 6), One(W, 6)), (One(E, 6), One(E, 6))]
  const Line495: seq<(Word, Word)> := [(Two(W, 5, N, 1), Two(W, 5, N, 1)), (Two(W, 5, S, 1), Two(W, 5, S, 1)), (Two(E, 5, N, 1), Two(E, 5, N, 1)), (Two(E, 5, S, 1), Two(E, 5, S, 1))]
  const Line496: seq<(Word, Word)> := [(Two(S, 5, E, 1), Two(S, 5, E, 1)), (Two(S, 5, W, 1), Two(S, 5, W, 1)), (Two(N, 5, W, 1), Two(N, 5, W, 1)), (Two(N, 5, E, 1), Two(N, 5, E, 1))]
  const Line497: seq<(Word, Word)> := [(Two(W, 4, N, 2), Two(W, 4, N, 2)), (Two(W, 4, S, 2), Two(W, 4, S, 2)), (Two(E, 4, N, 2), Two(E, 4, N, 2)), (Two(E, 4, S, 2), Two(E, 4, S, 2))]
  const Line498: seq<(Word, Word)> := [(Two(N, 4, E, 2), Two(N, 4, E, 2)), (Two(N, 4, W, 2), Two(N, 4, W, 2)), (Two(S, 4, W, 2), Two(S, 4, W, 2)), (Two(S, 4, E, 2), Two(S, 4, E, 2))]
  const Line499: seq<(Word, Word)> := [(Two(E, 3, N, 3), Two(E, 3, N, 3)), (Two(E, 3, S, 3), Two(E, 3, S, 3)), (Two(W, 3, N, 3), Two(W, 3, N, 3)), (Two(W, 3, S, 3), Two(W, 3, S, 3))]

  // 7 moves away
  const Line501: seq<(Word, Word)> := [(One(S, 7), One(S, 7)), (One(N, 7), One(N, 7)), (One(W, 7), One(W, 7)), (One(E, 7), One(E, 7))]
  const Line502: seq<(Word, Word)> := [(Two(W, 6, N, 1), Two(W, 6, N, 1)), (Two(W, 6, S, 1), Two(W, 6, S, 1)), (Two(E, 6, N, 1), Two(E, 6, N, 1)), (Two(E, 6, S, 1), Two(E, 6, S, 1))]
  const Line503: seq<(Word, Word)> := [(Two(S, 6, E, 1), Two(S, 6, E, 1)), (Two(S, 6, W, 1), Two(S, 6, W, 1)), (Two(N, 6, W, 1), Two(N, 6, W, 1)), (Two(N, 6, E, 1), Two(N, 6, E, 1))]
  const Line504: seq<(Word, Word)> := [(Two(W, 5, N, 2), Two(W, 5, N, 2)), (Two(W, 5, S, 2), Two(W, 5, S, 2)), (Two(E, 5, N, 2), Two(E, 5, N, 2)), (Two(E, 5, S, 2), Two(E, 5, S, 2))]
  const Line505: seq<(Word, Word)> := [(Two(N, 5, W, 2), Two(N, 5, W, 2)), (Two(N, 5, E, 2), Two(N, 5, E, 2)), (Two(S, 5, W, 2), Two(S, 5, W, 2)), (Two(S, 5, E, 2), Two(S, 5, E, 2))]
  const Line506: seq<(Word, Word)> := [(Two(E, 4, N, 3), Two(E, 4, N, 3)), (Two(E, 4, S, 3), Two(E, 4, S, 3)), (Two(W, 4, N, 3), Two(W, 4, N, 3)), (Two(W, 4, S, 3), Two(W, 4, S, 3))]
  const Line507: seq<(Word, Word)> := [(Two(N, 4, E, 3), Two(N, 4, E, 3)), (Two(N, 4, W, 3), Two(N, 4, W, 3)), (Two(S, 4, W, 3), Two(S, 4, W, 3)), (Two(S, 4, E, 3), Two(S, 4, E, 3))]

  // 8 moves away
  const Line509: seq<(Word, Word)> := [(One(S, 8), One(S, 8)), (One(N, 8), One(N, 8)), (One(W, 8), One(W, 8)), (One(E, 8), One(E, 8))]
  const Line510: seq<(Word, Word)> := [(Two(W, 7, N, 1), Two(W, 7, N, 1)), (Two(W, 7, S, 1), Two(W, 7, S, 1)), (Two(E, 7, N, 1), Two(E, 7, N, 1)), (Two(E, 7, S, 1), Two(E, 7, S, 1))]
  const Line511: seq<(Word, Word)> := [(Two(S, 7, E, 1), Two(S, 7, E, 1)), (Two(S, 7, W, 1), Two(S, 7, W, 1)), (Two(N, 7, W, 1), Two(N, 7, W, 1)), (Two(N, 7, E, 1), Two(N, 7, E, 1))]
  const Line512: seq<(Word, Word)> := [(Two(W, 6, N, 2), Two(W, 6, N, 2)), (Two(W, 7, S, 2), Two(W, 6, S, 2)), (Two(E, 7, N, 2), Two(E, 6, N, 2)), (Two(E, 7, S, 2), Two(E, 6, S, 2))]
  const Line513: seq<(Word, Word)> := [(Two(N, 6, W, 2), Two(N, 6, W, 2)), (Two(N, 6, E, 2), Two(N, 6, E, 2)), (Two(S, 6, W, 2), Two(S, 6, W, 2)), (Two(S, 6, E, 2), Two(S, 6, W, 2))]
  const Line514: seq<(Word, Word)> := [(Two(N, 5, W, 3), Two(N, 5, W, 3)), (Two(N, 5, E, 3), Two(N, 5, E, 3)), (Two(S, 5, W, 3), Two(S, 5, W, 3)), (Two(S, 5, E, 3), Two(S, 5, E, 3))]
  const Line515: seq<(Word, Word)> := [(Two(E, 5, N, 3), Two(E, 5, N, 3)), (Two(E, 5, S, 3), Two(E, 5, S, 3)), (Two(W, 5, N, 3), Two(W, 5, N, 3)), (Two(W, 5, S, 3), Two(W, 5, S, 3))]
  const Line516: seq<(Word, Word)> := [(Two(E, 4, N, 4), Two(E, 4, N, 4)), (Two(W, 4, N, 4), Two(W, 4, N, 4)), (Two(E, 4, S, 4), Two(E, 4, S, 4)), (Two(W, 4, S, 4), Two(W, 4, S, 4))]

  // 9 moves away
  const Line518: seq<(Word, Word)> := [(One(S, 9), One(S, 9)), (One(N, 9), One(N, 9)), (One(W, 9), One(W, 9)), (One(E, 9), One(E, 9))]
  const Line519: seq<(Word, Word)> := [(Two(W, 8, N, 1), Two(W, 8, N, 1)), (Two(W, 8, S, 1), Two(W, 8, S, 1)), (Two(E, 8, N, 1), Two(E, 8, N, 1)), (Two(E, 8, S, 1), Two(E, 8, S, 1))]
  const Line520: seq<(Word, Word)> := [(Two(S, 8, E, 1), Two(S, 8, E, 1)), (Two(S, 8, W, 1), Two(S, 8, W, 1)), (Two(N, 8, W, 1), Two(N, 8, W, 1)), (Two(N, 8, E, 1), Two(N, 8, E, 1))]
  const Line521: seq<(Word, Word)> := [(Two(N, 7, E, 2), Two(N, 7, E, 2)), (Two(N, 7, W, 2), Two(N, 7, W, 2)), (Two(S, 7, E, 2), Two(S, 7, E, 2)), (Two(S, 7, W, 2), Two(S, 7, W, 2))]
  const Line522: seq<(Word, Word)> := [(Two(E, 7, N, 2), Two(E, 7, N, 2)), (Two(E, 7, S, 2), Two(E, 7, S, 2)), (Two(W, 7, N, 2), Two(W, 7, N, 2)), (Two(W, 7, S, 2), Two(W, 7, S, 2))]
  const Line523: seq<(Word, Word)> := [(Two(N, 6, W, 3), Two(N, 6, W, 3)), (Two(N, 6, E, 3), Two(N, 6, E, 3)), (Two(S, 6, W, 3), Two(S, 6, W, 3)), (Two(S, 6, E, 3), Two(S, 6, E, 3))]
  const Line524: seq<(Word, Word)> := [(Two(E, 6, N, 3), Two(E, 6, N, 3)), (Two(E, 6, S, 3), Two(E, 6, S, 3)), (Two(W, 6, N, 3), Two(W, 6, N, 3)), (Two(W, 6, S, 3), Two(W, 6, S, 3))]
  const Line525: seq<(Word, Word)> := [(Two(N, 5, W, 4), Two(N, 5, W, 4)), (Two(N, 5, E, 4), Two(N, 5, E, 4)), (Two(S, 5, W, 4), Two(S, 5, W, 4)), (Two(S, 5, E, 4), Two(S, 5, E, 4))]
  const Line526: seq<(Word, Word)> := [(Two(E, 5, N, 4), Two(E, 5, N, 4)), (Two(E, 5, S, 4), Two(E, 5, S, 4)), (Two(W, 5, N, 4), Two(W, 5, N, 4)), (Two(W, 5, S, 4), Two(W, 5, S, 4))]

  // 10 moves away
  const Line528: seq<(Word, Word)> := [(One(S, 10), One(S, 10)), (One(N, 10), One(N, 10)), (One(W, 10), One(W, 10)), (One(E, 10), One(E, 10))]
  const Line529: seq<(Word, Word)> := [(Two(W, 9, N, 1), Two(W, 9, N, 1)), (Two(W, 9, S, 1), Two(W, 9, S, 1)), (Two(E, 9, N, 1), Two(E, 9, N, 1)), (Two(E, 9, S, 1), Two(E, 9, S, 1))]
  const Line530: seq<(Word, Word)> := [(Two(S, 9, E, 1), Two(S, 9, E, 1)), (Two(S, 9, W, 1), Two(S, 9, W, 1)), (Two(N, 9, W, 1), Two(N, 9, W, 1)), (Two(N, 9, E, 1), Two(N, 9, E, 1))]
  const Line531: seq<(Word, Word)> := [(Two(N, 8, E, 2), Two(N, 8, E, 2)), (Two(S, 8, E, 2), Two(S, 8, E, 2)), (Two(N, 8, W, 2), Two(N, 8, W, 2)), (Two(S, 8, W, 2), Two(S, 8, W, 2))]
  const Line532: seq<(Word, Word)> := [(Two(E, 8, N, 2), Two(E, 8, N, 2)), (Two(E, 8, S, 2), Two(E, 8, S, 2)), (Two(W, 8, N, 2), Two(W, 8, N, 2)), (Two(W, 8, N, 2), Two(W, 8, N, 2))]
  const Line533: seq<(Word, Word)> := [(Two(W, 7, N, 3), Two(W, 7, N, 3)), (Two(W, 7, S, 3), Two(W, 7, S, 3)), (Two(E, 7, S, 3), Two(E, 7, S, 3)), (Two(E, 7, W, 3), Two(E, 7, N, 3))]
  const Line534: seq<(Word, Word)> := [(Two(N, 7, W, 3), Two(N, 7, W, 3)), (Two(N, 7, E, 3), Two(N, 7, E, 3)), (Two(S, 7, W, 3), Two(S, 7, W, 3)), (Two(S, 7, E, 3), Two(S, 7, E, 3))]
  const Line535: seq<(Word, Word)> := [(Two(W, 6, N, 4), Two(W, 6, N, 4)), (Two(W, 6, S, 4), Two(W, 6, S, 4)), (Two(E, 6, N, 4), Two(E, 6, N, 4)), (Two(E, 6, S, 4), Two(E, 6, S, 4))]
  const Line536: seq<(Word, Word)> := [(Two(N, 6, W, 4), Two(N, 6, W, 4)), (Two(N, 6, E, 4), Two(N, 6, E, 4)), (Two(S, 6, W, 4), Two(S, 6, W, 4)), (Two(S, 6, E, 4), Two(S, 6, E, 4))]
  const Line537: seq<(Word, Word)> := [(Two(N, 5, W, 5), Two(N, 5, W, 5)), (Two(N, 5, E, 5), Two(N, 5, E, 5)), (Two(S, 5, W, 5), Two(S, 5, W, 5)), (Two(S, 5, E, 5), Two(S, 5, E, 5))]


  /// The entries listed as 1 move away.
  const Ring1: seq<(Word, Word)> := Line475
  /// The entries listed as 2 moves away.
  const Ring2: seq<(Word, Word)> := Line477
  /// The entries listed as 3 moves away.
  const Ring3: seq<(Word, Word)> := Line479 + Line480 + Line481
  /// The entries listed as 4 moves away.
  const Ring4: seq<(Word, Word)> := Line483 + Line484 + Line485 + Line486
  /// The entries listed as 5 moves away.
  const Ring5: seq<(Word, Word)> := Line488 + Line489 + Line490 + Line491 + Line492
  /// The entries listed as 6 moves away.
  const Ring6: seq<(Word, Word)> := Line494 + Line495 + Line496 + Line497 + Line498 + Line499
  /// The entries listed as 7 moves away.
  const Ring7: seq<(Word, Word)> := Line501 + Line502 + Line503 + Line504 + Line505 + Line506 + Line507
  /// The entries listed as 8 moves away.
  const Ring8: seq<(Word, Word)> := Line509 + Line510 + Line511 + Line512 + Line513 + Line514 + Line515 + Line516
  /// The entries listed as 9 moves away.
  const Ring9: seq<(Word, Word)> := Line518 + Line519 + Line520 + Line521 + Line522 + Line523 + Line524 + Line525 + Line526
  /// The entries listed as 10 moves away.
  const Ring10: seq<(Word, Word)> := Line528 + Line529 + Line530 + Line531 + Line532 + Line533 + Line534 + Line535 + Line536 + Line537

  /// The entries of the literal in source order (220 pairs, 216 keys).
  const Early: seq<(Word, Word)> := Ring1 + Ring2 + Ring3 + Ring4 + Ring5 + Ring6 + Ring7 + Ring8
  const Late: seq<(Word, Word)> := Ring9 + Ring10
  const Table: seq<(Word, Word)> := Early + Late

  /// The dictionary the literal evaluates to, key -> path.
  const Paths: Dict<Word, Word> := FromPairs(Table)

  /// 'SSSSSSEE' is bound to s6.west.west (mod.py:513) and 'EEEEEEEWWW' to
  /// e7.north.north.north (mod.py:533): the two keys whose cell is not the
  /// one their letters lead to.
  const SlipKey: Word := Two(S, 6, E, 2)
  const SlipPath: Word := Two(S, 6, W, 2)
  const TurnKey: Word := Two(E, 7, W, 3)
  const TurnPath: Word := Two(E, 7, N, 3)

  predicate Follows(e: (Word, Word)) {
    ShiftX(e.0) == ShiftX(e.1) && ShiftY(e.0) == ShiftY(e.1)
  }

  /// An entry whose path follows its key, or one of the two slips.
  predicate Sound(e: (Word, Word)) {
    if e.0 == SlipKey then e.1 == SlipPath
    else if e.0 == TurnKey then e.1 == TurnPath
    else Follows(e)
  }

  /// The nine-letter keys 'WWWWWWWSS', 'EEEEEEENN' and 'EEEEEEESS' of
  /// mod.py:512, bound there to eight-step paths and listed again, with
  /// the right paths, at mod.py:522.
  predicate Overridden(w: Word) {
    w == Two(W, 7, S, 2) || w == Two(E, 7, N, 2) || w == Two(E, 7, S, 2)
  }

  /// P holds of every element of s.
  predicate All<T>(s: seq<T>, P: T -> bool) {
    forall i | 0 <= i < |s| :: P(s[i])
  }

  lemma AllAppend<T>(a: seq<T>, b: seq<T>, P: T -> bool)
    requires All(a, P) && All(b, P)
    ensures All(a + b, P)
  {
    forall i | 0 <= i < |a + b| ensures P((a + b)[i]) {
      if i >= |a| {
        assert (a + b)[i] == b[i - |a|];
      }
    }
  }

  lemma AllMember<T>(s: seq<T>, P: T -> bool, x: T)
    requires All(s, P) && x in s
    ensures P(x)
  {
  }

  /// An entry of the last two rings: a two-run key bound to a sound path.
  predicate Good(e: (Word, Word)) {
    TwoRun(e.0) && Sound(e)
  }

  /// An entry of the first eight rings: as Good, or one of the keys that
  /// the ninth ring lists again.
  predicate Listed(e: (Word, Word)) {
    TwoRun(e.0) && (Sound(e) || Overridden(e.0))
  }

  lemma Line475Entries()
    ensures All(Line475, Listed)
  {
  }

  lemma Line477Entries()
    ensures All(Line477, Listed)
  {
  }

  lemma Line479Entries()
    ensures All(Line479, Listed)
  {
  }

  lemma Line480Entries()
    ensures All(Line480, Listed)
  {
  }

  lemma Line481Entries()
    ensures All(Line481, Listed)
  {
  }

  lemma Line483Entries()
    ensures All(Line483, Listed)
  {
  }

  lemma Line484Entries()
    ensures All(Line484, Listed)
  {
  }

  lemma Line485Entries()
    ensures All(Line485, Listed)
  {
  }

  lemma Line486Entries()
    ensures All(Line486, Listed)
  {
  }

  lemma Line488Entries()
    ensures All(Line488, Listed)
  {
  }

  lemma Line489Entries()
    ensures All(Line489, Listed)
  {
  }

  lemma Line490Entries()
    ensures All(Line490, Listed)
  {
  }

  lemma Line491Entries()
    ensures All(Line491, Listed)
  {
  }

  lemma Line492Entries()
    ensures All(Line492, Listed)
  {
  }

  lemma Line494Entries()
    ensures All(Line494, Listed)
  {
  }

  lemma Line495Entries()
    ensures All(Line495, Listed)
  {
  }

  lemma Line496Entries()
    ensures All(Line496, Listed)
  {
  }

  lemma Line497Entries()
    ensures All(Line497, Listed)
  {
  }

  lemma Line498Entries()
    ensures All(Line498, Listed)
  {
  }

  lemma Line499Entries()
    ensures All(Line499, Listed)
  {
  }

  lemma Line501Entries()
    ensures All(Line501, Listed)
  {
  }

  lemma Line502Entries()
    ensures All(Line502, Listed)
  {
  }

  lemma Line503Entries()
    ensures All(Line503, Listed)
  {
  }

  lemma Line504Entries()
    ensures All(Line504, Listed)
  {
  }

  lemma Line505Entries()
    ensures All(Line505, Listed)
  {
  }

  lemma Line506Entries()
    ensures All(Line506, Listed)
  {
  }

  lemma Line507Entries()
    ensures All(Line507, Listed)
  {
  }

  lemma Line509Entries()
    ensures All(Line509, Listed)
  {
  }

  lemma Line510Entries()
    ensures All(Line510, Listed)
  {
  }

  lemma Line511Entries()
    ensures All(Line511, Listed)
  {
  }

  lemma Line512Entries()
    ensures All(Line512, Listed)
  {
  }

  lemma Line513Entries()
    ensures All(Line513, Listed)
  {
  }

  lemma Line514Entries()
    ensures All(Line514, Listed)
  {
  }

  lemma Line515Entries()
    ensures All(Line515, Listed)
  {
  }

  lemma Line516Entries()
    ensures All(Line516, Listed)
  {
  }

  lemma Line518Entries()
    ensures All(Line518, Good)
  {
  }

  lemma Line519Entries()
    ensures All(Line519, Good)
  {
  }

  lemma Line520Entries()
    ensures All(Line520, Good)
  {
  }

  lemma Line521Entries()
    ensures All(Line521, Good)
  {
  }

  lemma Line522Entries()
    ensures All(Line522, Good)
  {
  }

  lemma Line523Entries()
    ensures All(Line523, Good)
  {
  }

  lemma Line524Entries()
    ensures All(Line524, Good)
  {
  }

  lemma Line525Entries()
    ensures All(Line525, Good)
  {
  }

  lemma Line526Entries()
    ensures All(Line526, Good)
  {
  }

  lemma Line528Entries()
    ensures All(Line528, Good)
  {
  }

  lemma Line529Entries()
    ensures All(Line529, Good)
  {
  }

  lemma Line530Entries()
    ensures All(Line530, Good)
  {
  }

  lemma Line531Entries()
    ensures All(Line531, Good)
  {
  }

  lemma Line532Entries()
    ensures All(Line532, Good)
  {
  }

  lemma Line533Entries()
    ensures All(Line533, Good)
  {
  }

  lemma Line534Entries()
    ensures All(Line534, Good)
  {
  }

  lemma Line535Entries()
    ensures All(Line535, Good)
  {
  }

  lemma Line536Entries()
    ensures All(Line536, Good)
  {
  }

  lemma Line537Entries()
    ensures All(Line537, Good)
  {
  }

  lemma Ring1Entries()
    ensures All(Ring1, Listed)
  {
    Line475Entries();
  }

  lemma Ring2Entries()
    ensures All(Ring2, Listed)
  {
    Line477Entries();
  }

  lemma Ring3Entries()
    ensures All(Ring3, Listed)
  {
    Line479Entries(); Line480Entries(); Line481Entries();
    AllAppend(Line479, Line480, Listed);
    AllAppend(Line479 + Line480, Line481, Listed);
  }

  lemma Ring4Entries()
    ensures All(Ring4, Listed)
  {
    Line483Entries(); Line484Entries(); Line485Entries(); Line486Entries();
    AllAppend(Line483, Line484, Listed);
    AllAppend(Line483 + Line484, Line485, Listed);
    AllAppend(Line483 + Line484 + Line485, Line486, Listed);
  }

  lemma Ring5Entries()
    ensures All(Ring5, Listed)
  {
    Line488Entries(); Line489Entries(); Line490Entries(); Line491Entries();
    Line492Entries();
    AllAppend(Line488, Line489, Listed);
    AllAppend(Line488 + Line489, Line490, Listed);
    AllAppend(Line488 + Line489 + Line490, Line491, Listed);
    AllAppend(Line488 + Line489 + Line490 + Line491, Line492, Listed);
  }

  lemma Ring6Entries()
    ensures All(Ring6, Listed)
  {
    Line494Entries(); Line495Entries(); Line496Entries(); Line497Entries();
    Line498Entries(); Line499Entries();
    AllAppend(Line494, Line495, Listed);
    AllAppend(Line494 + Line495, Line496, Listed);
    AllAppend(Line494 + Line495 + Line496, Line497, Listed);
    AllAppend(Line494 + Line495 + Line496 + Line497, Line498, Listed);
    AllAppend(Line494 + Line495 + Line496 + Line497 + Line498, Line499, Listed);
  }

  lemma Ring7Entries()
    ensures All(Ring7, Listed)
  {
    Line501Entries(); Line502Entries(); Line503Entries(); Line504Entries();
    Line505Entries(); Line506Entries(); Line507Entries();
    AllAppend(Line501, Line502, Listed);
    AllAppend(Line501 + Line502, Line503, Listed);
    AllAppend(Line501 + Line502 + Line503, Line504, Listed);
    AllAppend(Line501 + Line502 + Line503 + Line504, Line505, Listed);
    AllAppend(Line501 + Line502 + Line503 + Line504 + Line505, Line506, Listed);
    AllAppend(Line501 + Line502 + Line503 + Line504 + Line505 + Line506, Line507, Listed);
  }

  lemma Ring8Entries()
    ensures All(Ring8, Listed)
  {
    Line509Entries(); Line510Entries(); Line511Entries(); Line512Entries();
    Line513Entries(); Line514Entries(); Line515Entries(); Line516Entries();
    AllAppend(Line509, Line510, Listed);
    AllAppend(Line509 + Line510, Line511, Listed);
    AllAppend(Line509 + Line510 + Line511, Line512, Listed);
    AllAppend(Line509 + Line510 + Line511 + Line512, Line513, Listed);
    AllAppend(Line509 + Line510 + Line511 + Line512 + Line513, Line514, Listed);
    AllAppend(Line509 + Line510 + Line511 + Line512 + Line513 + Line514, Line515, Listed);
    AllAppend(Line509 + Line510 + Line511 + Line512 + Line513 + Line514 + Line515, Line516, Listed);
  }

  lemma Ring9Entries()
    ensures All(Ring9, Good)
  {
    Line518Entries(); Line519Entries(); Line520Entries(); Line521Entries();
    Line522Entries(); Line523Entries(); Line524Entries(); Line525Entries();
    Line526Entries();
    AllAppend(Line518, Line519, Good);
    AllAppend(Line518 + Line519, Line520, Good);
    AllAppend(Line518 + Line519 + Line520, Line521, Good);
    AllAppend(Line518 + Line519 + Line520 + Line521, Line522, Good);
    AllAppend(Line518 + Line519 + Line520 + Line521 + Line522, Line523, Good);
    AllAppend(Line518 + Line519 + Line520 + Line521 + Line522 + Line523, Line524, Good);
    AllAppend(Line518 + Line519 + Line520 + Line521 + Line522 + Line523 + Line524, Line525, Good);
    AllAppend(Line518 + Line519 + Line520 + Line521 + Line522 + Line523 + Line524 + Line525, Line526, Good);
  }

  lemma Ring10Entries()
    ensures All(Ring10, Good)
  {
    Line528Entries(); Line529Entries(); Line530Entries(); Line531Entries();
    Line532Entries(); Line533Entries(); Line534Entries(); Line535Entries();
    Line536Entries(); Line537Entries();
    AllAppend(Line528, Line529, Good);
    AllAppend(Line528 + Line529, Line530, Good);
    AllAppend(Line528 + Line529 + Line530, Line531, Good);
    AllAppend(Line528 + Line529 + Line530 + Line531, Line532, Good);
    AllAppend(Line528 + Line529 + Line530 + Line531 + Line532, Line533, Good);
    AllAppend(Line528 + Line529 + Line530 + Line531 + Line532 + Line533, Line534, Good);
    AllAppend(Line528 + Line529 + Line530 + Line531 + Line532 + Line533 + Line534, Line535, Good);
    AllAppend(Line528 + Line529 + Line530 + Line531 + Line532 + Line533 + Line534 + Line535, Line536, Good);
    AllAppend(Line528 + Line529 + Line530 + Line531 + Line532 + Line533 + Line534 + Line535 + Line536, Line537, Good);
  }

  lemma EarlyEntries()
    ensures All(Early, Listed)
  {
    Ring1Entries(); Ring2Entries(); Ring3Entries(); Ring4Entries(); Ring5Entries(); Ring6Entries(); Ring7Entries(); Ring8Entries();
    AllAppend(Ring1, Ring2, Listed);
    AllAppend(Ring1 + Ring2, Ring3, Listed);
    AllAppend(Ring1 + Ring2 + Ring3, Ring4, Listed);
    AllAppend(Ring1 + Ring2 + Ring3 + Ring4, Ring5, Listed);
    AllAppend(Ring1 + Ring2 + Ring3 + Ring4 + Ring5, Ring6, Listed);
    AllAppend(Ring1 + Ring2 + Ring3 + Ring4 + Ring5 + Ring6, Ring7, Listed);
    AllAppend(Ring1 + Ring2 + Ring3 + Ring4 + Ring5 + Ring6 + Ring7, Ring8, Listed);
  }

  lemma LateEntries()
    ensures All(Late, Good)
  {
    Ring9Entries(); Ring10Entries();
    AllAppend(Ring9, Ring10, Good);
  }

  lemma OverriddenLater(w: Word)
    ensures Overridden(w) ==> w in FromPairs(Late).vals
  {
    FromPairsHas(Late, w);
    if Overridden(w) {
      assert Late[16].0 == Two(E, 7, N, 2);
      assert Late[17].0 == Two(E, 7, S, 2);
      assert Late[19].0 == Two(W, 7, S, 2);
    }
  }

  /// Every key of the dictionary is bound to a path that follows its
  /// letters, except the two slips; where a key is listed twice the later
  /// path is the one kept.
  lemma PathsSound(w: Word)
    requires w in Paths.vals
    ensures TwoRun(w) && Sound((w, Paths.vals[w]))
  {
    var e := (w, Paths.vals[w]);
    FromPairsSplit(Early, Late, w);
    if e in Late {
      LateEntries();
      AllMember(Late, Good, e);
    } else {
      EarlyEntries();
      AllMember(Early, Listed, e);
      OverriddenLater(w);
    }
  }

  /// One entry of a survey: the key and the cell bound to it.
  datatype Entry = Entry(dir: string, cell: Cell)

  /// The survey a dictionary of key -> path describes around origin: one
  /// entry per key, in the dictionary's iteration order, holding the cell
  /// that the key's path leads to.
  function Surveyed(d: Dict<Word, Word>, b: Snapshot, origin: Pos): (g: seq<Entry>)
    requires Valid(d)
    ensures |g| == |d.keys|
    ensures forall i | 0 <= i < |g| :: g[i].dir == Spell(d.keys[i])
  {
    seq(|d.keys|, i requires 0 <= i < |d.keys| =>
      Entry(Spell(d.keys[i]), b.cellAt(Walk(origin, Route(d.vals[d.keys[i]])))))
  }

  /// The path a key is bound to, as a word.
  function Bound(w: Word): Word {
    if w == SlipKey then SlipPath else if w == TurnKey then TurnPath else w
  }

  /// The cell of a sound entry is the one Bound's word leads to.
  lemma SurveyedCell(d: Dict<Word, Word>, b: Snapshot, origin: Pos, i: nat)
    requires Valid(d) && OnBoard(origin) && i < |d.keys|
    requires Sound((d.keys[i], d.vals[d.keys[i]]))
    ensures Surveyed(d, b, origin)[i].cell == b.cellAt(Reach(origin, Bound(d.keys[i])))
  {
    var w := d.keys[i];
    var v := d.vals[w];
    assert Surveyed(d, b, origin)[i].cell == b.cellAt(Walk(origin, Route(v)));
    WalkWord(origin, v);
    SoundReach(origin, (w, v));
  }

  /// The path of a sound entry leads where Bound says.
  lemma SoundReach(origin: Pos, e: (Word, Word))
    requires Sound(e)
    ensures Reach(origin, e.1) == Reach(origin, Bound(e.0))
  {
  }

  /// grid(cell) of mod.py: the survey around origin in the dictionary's
  /// iteration order.
  function Grid(b: Snapshot, origin: Pos): (g: seq<Entry>)
    ensures |g| == |Paths.keys|
  {
    Surveyed(Paths, b, origin)
  }

  /// Each survey cell lies as far east and north of origin as the letters
  /// of its key say, except for the two slips, whose cells lie where their
  /// bound paths lead.
  lemma GridCell(b: Snapshot, origin: Pos, i: nat)
    requires OnBoard(origin) && i < |Grid(b, origin)|
    ensures Grid(b, origin)[i].dir == Spell(Paths.keys[i])
    ensures Grid(b, origin)[i].cell == b.cellAt(Reach(origin, Bound(Paths.keys[i])))
  {
    PathsSound(Paths.keys[i]);
    SurveyedCell(Paths, b, origin, i);
  }

  /// The survey never lists the same key twice.
  lemma GridDirsDistinct(b: Snapshot, origin: Pos, i: nat, j: nat)
    requires i < j < |Grid(b, origin)|
    ensures Grid(b, origin)[i].dir != Grid(b, origin)[j].dir
  {
    var u, v := Paths.keys[i], Paths.keys[j];
    PathsSound(u);
    PathsSound(v);
    if Spell(u) == Spell(v) {
      SpellInjective(u, v);
    }
  }

  /// Every key of a survey is at least one move long.
  predicate Moving(es: seq<Entry>) {
    forall i | 0 <= i < |es| :: |es[i].dir| > 0
  }

  /// Every survey key is at least one move long.
  lemma GridDirsNonEmpty(b: Snapshot, origin: Pos)
    ensures Moving(Grid(b, origin))
  {
    forall i | 0 <= i < |Grid(b, origin)| ensures |Grid(b, origin)[i].dir| > 0 {
      var w := Paths.keys[i];
      PathsSound(w);
      assert |Route(w)| == w.n + w.m + w.k;
    }
  }

  /// grid for a fixed board, as a function of the cell it is taken around.
  function Surveyor(b: Snapshot): (f: Pos -> seq<Entry>)
    ensures forall p :: Moving(f(p))
  {
    GridMovingEverywhere(b);
    p => Grid(b, p)
  }

  lemma SurveyorIsGrid(b: Snapshot, p: Pos)
    ensures Surveyor(b)(p) == Grid(b, p)
  {
  }

  lemma GridMovingEverywhere(b: Snapshot)
    ensures forall p :: Moving(Grid(b, p))
  {
    forall p: Pos ensures Moving(Grid(b, p)) {
      GridDirsNonEmpty(b, p);
    }
  }
}
