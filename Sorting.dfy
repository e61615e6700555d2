/// Python's sorted(..., key=..., reverse=True): a stable sort into
/// descending key order. Elements with equal keys keep their original
/// relative order.
module Sorting {
  /// Every element's key is at least the key of every later element.
  ghost predicate Descending<T>(s: seq<T>, key: T -> real) {
    forall i, j | 0 <= i < j < |s| :: key(s[i]) >= key(s[j])
  }

  /// Places x after the leading elements whose key is at least x's.
  function Insert<T>(s: seq<T>, x: T, key: T -> real): (r: seq<T>)
    ensures |r| == |s| + 1
  {
    if s == [] then [x]
    else if key(s[0]) >= key(x) then [s[0]] + Insert(s[1..], x, key)
    else [x] + s
  }

  /// The elements in the order sorted(s, key=key, reverse=True) returns:
  /// each element in turn is inserted after everything already placed
  /// whose key is at least its own.
  function SortDesc<T>(s: seq<T>, key: T -> real): (r: seq<T>)
    ensures |r| == |s|
  {
    if s == [] then []
    else Insert(SortDesc(s[..|s| - 1], key), s[|s| - 1], key)
  }

  /// The elements of s whose key is v, in order.
  function WithKey<T>(s: seq<T>, key: T -> real, v: real): (r: seq<T>)
    ensures |r| <= |s|
  {
    if s == [] then []
    else (if key(s[0]) == v then [s[0]] else []) + WithKey(s[1..], key, v)
  }

  lemma {:induction false} InsertPermutes<T>(s: seq<T>, x: T, key: T -> real)
    ensures multiset(Insert(s, x, key)) == multiset(s) + multiset{x}
  {
    if s != [] && key(s[0]) >= key(x) {
      InsertPermutes(s[1..], x, key);
      assert s == [s[0]] + s[1..];
    }
  }

  lemma {:induction false} InsertDescending<T>(s: seq<T>, x: T, key: T -> real)
    requires Descending(s, key)
    ensures Descending(Insert(s, x, key), key)
  {
    if s != [] && key(s[0]) >= key(x) {
      var rest := Insert(s[1..], x, key);
      InsertDescending(s[1..], x, key);
      InsertPermutes(s[1..], x, key);
      forall j | 0 < j < |rest| + 1 ensures key(s[0]) >= key(([s[0]] + rest)[j]) {
        var y := rest[j - 1];
        assert y in multiset(rest);
        assert y in multiset(s[1..]) + multiset{x};
        if y != x {
          assert y in s[1..];
        }
      }
    }
  }

  /// The result is in descending key order.
  lemma {:induction false} SortDescSorted<T>(s: seq<T>, key: T -> real)
    ensures Descending(SortDesc(s, key), key)
  {
    if s != [] {
      SortDescSorted(s[..|s| - 1], key);
      InsertDescending(SortDesc(s[..|s| - 1], key), s[|s| - 1], key);
    }
  }

  /// The result holds exactly the elements of the input.
  lemma {:induction false} SortDescPermutes<T>(s: seq<T>, key: T -> real)
    ensures multiset(SortDesc(s, key)) == multiset(s)
  {
    if s != [] {
      SortDescPermutes(s[..|s| - 1], key);
      InsertPermutes(SortDesc(s[..|s| - 1], key), s[|s| - 1], key);
      assert s == s[..|s| - 1] + [s[|s| - 1]];
    }
  }

  lemma {:induction false} WithKeyNone<T>(s: seq<T>, key: T -> real, v: real)
    requires forall i | 0 <= i < |s| :: key(s[i]) != v
    ensures WithKey(s, key, v) == []
  {
    if s != [] {
      WithKeyNone(s[1..], key, v);
    }
  }

  /// Inserting x into a descending sequence adds x at the end of the
  /// elements that share its key.
  lemma {:induction false} InsertWithKey<T>(s: seq<T>, x: T, key: T -> real, v: real)
    requires Descending(s, key)
    ensures WithKey(Insert(s, x, key), key, v) ==
            WithKey(s, key, v) + (if key(x) == v then [x] else [])
  {
    var tail := if key(x) == v then [x] else [];
    if s == [] {
      assert Insert(s, x, key) == [x];
      assert [x][1..] == [];
    } else if key(s[0]) >= key(x) {
      var head := if key(s[0]) == v then [s[0]] else [];
      InsertWithKey(s[1..], x, key, v);
      var r := Insert(s, x, key);
      assert r[0] == s[0] && r[1..] == Insert(s[1..], x, key);
      assert WithKey(r, key, v) == head + (WithKey(s[1..], key, v) + tail);
      assert WithKey(s, key, v) == head + WithKey(s[1..], key, v);
    } else {
      var r := Insert(s, x, key);
      assert r[0] == x && r[1..] == s;
      if key(x) == v {
        forall i | 0 <= i < |s| ensures key(s[i]) != v {
          assert i == 0 || key(s[0]) >= key(s[i]);
        }
        WithKeyNone(s, key, v);
      }
    }
  }

  lemma {:induction false} WithKeyAppend<T>(a: seq<T>, b: seq<T>, key: T -> real, v: real)
    ensures WithKey(a + b, key, v) == WithKey(a, key, v) + WithKey(b, key, v)
  {
    if a == [] {
      assert a + b == b;
    } else {
      var head := if key(a[0]) == v then [a[0]] else [];
      WithKeyAppend(a[1..], b, key, v);
      assert (a + b)[0] == a[0] && (a + b)[1..] == a[1..] + b;
      assert WithKey(a + b, key, v) == head + WithKey(a[1..] + b, key, v);
      assert WithKey(a, key, v) == head + WithKey(a[1..], key, v);
    }
  }

  /// Stability: the elements sharing any one key come out in the order they
  /// went in.
  lemma {:induction false} SortDescStable<T>(s: seq<T>, key: T -> real, v: real)
    ensures WithKey(SortDesc(s, key), key, v) == WithKey(s, key, v)
  {
    if s != [] {
      var init := s[..|s| - 1];
      SortDescStable(init, key, v);
      SortDescSorted(init, key);
      InsertWithKey(SortDesc(init, key), s[|s| - 1], key, v);
      WithKeyAppend(init, [s[|s| - 1]], key, v);
      assert s == init + [s[|s| - 1]];
    }
  }
}
