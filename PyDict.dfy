/// Python's dict as the bot uses it: a mapping that remembers the order in
/// which keys were first inserted. Assigning to a key that is already present
/// replaces the value and keeps the key's position; deleting removes both.
module PyDict {
  import opened Wrappers

  datatype Dict<K(==), V> = Dict(keys: seq<K>, vals: map<K, V>)

  /// Keys are listed once each, and exactly the keys with a value are listed.
  predicate Valid<K(==), V>(d: Dict<K, V>) {
    && (forall i, j | 0 <= i < j < |d.keys| :: d.keys[i] != d.keys[j])
    && (forall k | k in d.keys :: k in d.vals)
    && (forall k | k in d.vals :: k in d.keys)
  }

  function Empty<K(==), V>(): (d: Dict<K, V>)
    ensures Valid(d) && d.keys == []
  {
    Dict([], map[])
  }

  /// d[k] = v
  function Put<K(==), V>(d: Dict<K, V>, k: K, v: V): (r: Dict<K, V>)
    requires Valid(d)
    ensures Valid(r)
    ensures r.vals == d.vals[k := v]
    ensures k in d.vals ==> r.keys == d.keys
    ensures k !in d.vals ==> r.keys == d.keys + [k]
  {
    if k in d.vals then Dict(d.keys, d.vals[k := v]) else Dict(d.keys + [k], d.vals[k := v])
  }

  /// Assigning a key twice is assigning it the second value.
  lemma PutTwice<K, V>(d: Dict<K, V>, k: K, v: V, u: V)
    requires Valid(d)
    ensures Put(Put(d, k, v), k, u) == Put(d, k, u)
  {
  }

  /// d.items(): the key-value pairs in key order.
  function Items<K(==), V>(d: Dict<K, V>): (ps: seq<(K, V)>)
    requires Valid(d)
    ensures |ps| == |d.keys|
    ensures forall p | p in ps :: p.0 in d.vals && p.1 == d.vals[p.0]
  {
    seq(|d.keys|, i requires 0 <= i < |d.keys| => (d.keys[i], d.vals[d.keys[i]]))
  }

  /// Every key of the dict appears among its items with its value.
  lemma ItemsHas<K, V>(d: Dict<K, V>, k: K)
    requires Valid(d) && k in d.vals
    ensures (k, d.vals[k]) in Items(d)
  {
    var i :| 0 <= i < |d.keys| && d.keys[i] == k;
    assert Items(d)[i] == (k, d.vals[k]);
  }

  /// The keys of ks other than k, in their order.
  function Without<K(==)>(ks: seq<K>, k: K): seq<K> {
    if ks == [] then []
    else if ks[0] == k then Without(ks[1..], k)
    else [ks[0]] + Without(ks[1..], k)
  }

  lemma {:induction false} WithoutMembers<K>(ks: seq<K>, k: K)
    ensures forall x | x in Without(ks, k) :: x in ks && x != k
    ensures forall x | x in ks && x != k :: x in Without(ks, k)
  {
    if ks != [] {
      WithoutMembers(ks[1..], k);
      assert ks == [ks[0]] + ks[1..];
    }
  }

  lemma {:induction false} WithoutDistinct<K>(ks: seq<K>, k: K)
    requires forall i, j | 0 <= i < j < |ks| :: ks[i] != ks[j]
    ensures forall i, j | 0 <= i < j < |Without(ks, k)| :: Without(ks, k)[i] != Without(ks, k)[j]
  {
    if ks != [] {
      var t := ks[1..];
      assert forall i, j | 0 <= i < j < |t| :: t[i] != t[j] by {
        forall i, j | 0 <= i < j < |t| ensures t[i] != t[j] {
          assert t[i] == ks[i + 1] && t[j] == ks[j + 1];
        }
      }
      WithoutDistinct(t, k);
      WithoutMembers(t, k);
      if ks[0] != k {
        var w := Without(t, k);
        assert ks[0] !in t;
        assert Without(ks, k) == [ks[0]] + w;
        forall i, j | 0 <= i < j < |[ks[0]] + w| ensures ([ks[0]] + w)[i] != ([ks[0]] + w)[j] {
          if i == 0 {
            assert ([ks[0]] + w)[j] == w[j - 1];
            assert w[j - 1] in w;
          } else {
            assert ([ks[0]] + w)[i] == w[i - 1] && ([ks[0]] + w)[j] == w[j - 1];
          }
        }
      }
    }
  }

  /// del d[k]; Python raises KeyError when k is missing, so k must be present.
  function Del<K(==), V>(d: Dict<K, V>, k: K): (r: Dict<K, V>)
    requires Valid(d) && k in d.vals
    ensures Valid(r)
    ensures r.vals == d.vals - {k}
    ensures forall x | x in r.keys :: x in d.keys && x != k
    ensures forall x | x in d.keys && x != k :: x in r.keys
  {
    WithoutMembers(d.keys, k);
    WithoutDistinct(d.keys, k);
    Dict(Without(d.keys, k), d.vals - {k})
  }

  /// The dict that a literal `{k1: v1, k2: v2, ...}` evaluates to.
  function FromPairs<K(==), V>(ps: seq<(K, V)>): (d: Dict<K, V>)
    ensures Valid(d)
  {
    if ps == [] then Empty() else Put(FromPairs(ps[..|ps| - 1]), ps[|ps| - 1].0, ps[|ps| - 1].1)
  }

  /// A key is in the literal iff some pair names it, and its value is the
  /// value of some pair that names it.
  lemma {:induction false} FromPairsHas<K, V>(ps: seq<(K, V)>, k: K)
    ensures k in FromPairs(ps).vals <==> exists i :: 0 <= i < |ps| && ps[i].0 == k
    ensures k in FromPairs(ps).vals ==> (k, FromPairs(ps).vals[k]) in ps
  {
    if ps != [] {
      var init := ps[..|ps| - 1];
      FromPairsHas(init, k);
      if k != ps[|ps| - 1].0 {
        if exists i :: 0 <= i < |ps| && ps[i].0 == k {
          var i :| 0 <= i < |ps| && ps[i].0 == k;
          assert init[i].0 == k;
        }
        if k in FromPairs(init).vals {
          var i :| 0 <= i < |init| && init[i] == (k, FromPairs(init).vals[k]);
          assert ps[i] == init[i];
        }
      }
    }
  }

  /// A literal whose keys are all different lists them in its own order,
  /// each with its own value.
  lemma {:induction false} FromPairsDistinct<K, V>(ps: seq<(K, V)>)
    requires forall i, j | 0 <= i < j < |ps| :: ps[i].0 != ps[j].0
    ensures |FromPairs(ps).keys| == |ps|
    ensures forall i | 0 <= i < |ps| :: FromPairs(ps).keys[i] == ps[i].0
    ensures forall i | 0 <= i < |ps| :: FromPairs(ps).vals[ps[i].0] == ps[i].1
  {
    if ps != [] {
      var init := ps[..|ps| - 1];
      var last := ps[|ps| - 1];
      assert forall i | 0 <= i < |init| :: init[i] == ps[i];
      FromPairsDistinct(init);
      var d := FromPairs(init);
      forall i | 0 <= i < |init| ensures d.keys[i] != last.0 {
        assert ps[i].0 != ps[|ps| - 1].0;
      }
      assert last.0 !in d.vals;
      assert FromPairs(ps) == Put(d, last.0, last.1);
      assert FromPairs(ps).keys == d.keys + [last.0];
      assert FromPairs(ps).vals == d.vals[last.0 := last.1];
    }
  }

  /// The last pair of a literal sets its key's value.
  lemma FromPairsLast<K, V>(ps: seq<(K, V)>)
    requires ps != []
    ensures FromPairs(ps).vals == FromPairs(ps[..|ps| - 1]).vals[ps[|ps| - 1].0 := ps[|ps| - 1].1]
  {
  }

  /// The later of two pairs with the same key wins: a key that the tail of
  /// the literal names takes its value from that tail.
  lemma {:induction false} FromPairsLaterWins<K, V>(ps: seq<(K, V)>, qs: seq<(K, V)>, k: K)
    requires k in FromPairs(qs).vals
    ensures k in FromPairs(ps + qs).vals
    ensures FromPairs(ps + qs).vals[k] == FromPairs(qs).vals[k]
    decreases |qs|
  {
    var all := ps + qs;
    var init := qs[..|qs| - 1];
    var last := qs[|qs| - 1];
    assert all[..|all| - 1] == ps + init && all[|all| - 1] == last;
    FromPairsLast(all);
    FromPairsLast(qs);
    if k != last.0 {
      FromPairsLaterWins(ps, init, k);
    }
  }

  /// The value a key has in a literal written in two parts comes from a pair
  /// of the second part, or from the first part when the second part does
  /// not name the key.
  lemma FromPairsSplit<K, V>(ps: seq<(K, V)>, qs: seq<(K, V)>, k: K)
    requires k in FromPairs(ps + qs).vals
    ensures || (k, FromPairs(ps + qs).vals[k]) in qs
            || ((k, FromPairs(ps + qs).vals[k]) in ps && k !in FromPairs(qs).vals)
  {
    FromPairsHas(qs, k);
    FromPairsHas(ps + qs, k);
    if k in FromPairs(qs).vals {
      FromPairsLaterWins(ps, qs, k);
    }
  }

  /// The value of the first key of highest value in insertion order, which
  /// is what `max(d, key=d.get)` and the head of a stable descending sort
  /// return; None for an empty dict.
  function FirstMax<K(==)>(ks: seq<K>, vals: map<K, real>): (r: Option<K>)
    requires forall k | k in ks :: k in vals
    ensures r.None? <==> ks == []
    ensures r.Some? ==> r.value in ks
  {
    if ks == [] then None
    else match FirstMax(ks[1..], vals)
      case None => Some(ks[0])
      case Some(m) => if vals[m] > vals[ks[0]] then Some(m) else Some(ks[0])
  }

  /// The key FirstMax picks has the highest value, and every key listed
  /// before it has a strictly lower value.
  lemma {:induction false} FirstMaxIsFirstMaximum<K>(ks: seq<K>, vals: map<K, real>)
    requires forall k | k in ks :: k in vals
    requires ks != []
    ensures FirstMax(ks, vals).Some?
    ensures forall k | k in ks :: vals[k] <= vals[FirstMax(ks, vals).value]
    ensures exists i :: 0 <= i < |ks| && ks[i] == FirstMax(ks, vals).value &&
              forall j | 0 <= j < i :: vals[ks[j]] < vals[ks[i]]
  {
    var m := FirstMax(ks, vals).value;
    if ks[1..] == [] {
      assert ks == [ks[0]];
      assert ks[0] == m;
    } else {
      FirstMaxIsFirstMaximum(ks[1..], vals);
      var t := FirstMax(ks[1..], vals).value;
      assert ks == [ks[0]] + ks[1..];
      var i :| 0 <= i < |ks[1..]| && ks[1..][i] == t && forall j | 0 <= j < i :: vals[ks[1..][j]] < vals[ks[1..][i]];
      if vals[t] > vals[ks[0]] {
        assert m == t;
        forall j | 0 <= j < i + 1 ensures vals[ks[j]] < vals[ks[i + 1]] {
          if j > 0 { assert ks[j] == ks[1..][j - 1]; }
        }
      } else {
        assert m == ks[0];
      }
    }
  }
}
