/** Sums over finite maps, and weights moved from key to key. */
module Totals {
  import opened Wrappers

  ghost function Total<K>(m: map<K, real>): real
    decreases |m|
  {
    if m == map[] then 0.0
    else
      var k :| k in m;
      assert |m - {k}| < |m| by { FewerKeys(m, k); }
      m[k] + Total(m - {k})
  }

  /** A sum can be taken from any key first. */
  lemma {:induction false} TotalSplit<K>(m: map<K, real>, k: K)
    requires k in m
    ensures Total(m) == m[k] + Total(m - {k})
    decreases |m|
  {
    var j :| j in m && Total(m) == m[j] + Total(m - {j});
    if j != k {
      FewerKeys(m, j);
      FewerKeys(m, k);
      TotalSplit(m - {j}, k);
      TotalSplit(m - {k}, j);
      assert m - {j} - {k} == m - {k} - {j};
    }
  }

  /** `whole` is `a` and `b` side by side. */
  ghost predicate Parted<K>(whole: map<K, real>, a: map<K, real>, b: map<K, real>) {
    && (forall k :: k in whole ==> k in a || k in b)
    && (forall k :: k in a ==> k !in b && k in whole && whole[k] == a[k])
    && (forall k :: k in b ==> k in whole && whole[k] == b[k])
  }

  lemma {:induction false} PartedLess<K>(whole: map<K, real>, a: map<K, real>, b: map<K, real>, k: K)
    requires Parted(whole, a, b) && k in b
    ensures Parted(whole - {k}, a, b - {k})
  {
  }

  lemma {:induction false} TotalJoin<K>(whole: map<K, real>, a: map<K, real>, b: map<K, real>)
    requires Parted(whole, a, b)
    ensures Total(whole) == Total(a) + Total(b)
    decreases |b|
  {
    if b == map[] {
      assert whole == a;
    } else {
      var k :| k in b;
      FewerKeys(b, k);
      PartedLess(whole, a, b, k);
      TotalJoin(whole - {k}, a, b - {k});
      TotalSplit(b, k);
      TotalSplit(whole, k);
    }
  }

  // ------------------------------------------------------------ moving weights

  datatype Pair<+K> = Pair(dead: K, target: K)

  /** The weight of the dead key goes to the target. */
  ghost function Shift<K>(m: map<K, real>, p: Pair<K>): map<K, real> {
    if p.dead !in m then m
    else (m - {p.dead})[p.target := m[p.dead] + if p.target in m then m[p.target] else 0.0]
  }

  ghost function ShiftEach<K>(m: map<K, real>, pairs: seq<Pair<K>>): map<K, real> {
    if pairs == [] then m else Shift(ShiftEach(m, pairs[..|pairs| - 1]), pairs[|pairs| - 1])
  }

  /** Where a key ends up. */
  ghost function Goes<K>(pairs: seq<Pair<K>>, k: K): K {
    if pairs == [] then k
    else
      var last, before := pairs[|pairs| - 1], Goes(pairs[..|pairs| - 1], k);
      if before == last.dead then last.target else before
  }

  /** Where the keys end up. */
  ghost function Image<K>(pairs: seq<Pair<K>>, keys: set<K>): set<K> {
    set k | k in keys :: Goes(pairs, k)
  }

  ghost function ImageOne<K>(p: Pair<K>, keys: set<K>): set<K> {
    set k | k in keys :: if k == p.dead then p.target else k
  }

  lemma {:induction false} ImageStep<K>(pairs: seq<Pair<K>>, keys: set<K>)
    requires pairs != []
    ensures Image(pairs, keys) == ImageOne(pairs[|pairs| - 1], Image(pairs[..|pairs| - 1], keys))
  {
    var front, p := pairs[..|pairs| - 1], pairs[|pairs| - 1];
    forall k | k in keys ensures Goes(pairs, k) in ImageOne(p, Image(front, keys)) {
      assert Goes(front, k) in Image(front, keys);
    }
    forall j | j in ImageOne(p, Image(front, keys)) ensures j in Image(pairs, keys) {
      var k :| k in keys && j == if Goes(front, k) == p.dead then p.target else Goes(front, k);
      assert Goes(pairs, k) == j;
    }
  }

  lemma {:induction false} ImageOfNone<K>(keys: set<K>)
    ensures Image([], keys) == keys
  {
    forall k ensures k in Image([], keys) <==> k in keys {
      assert Goes([], k) == k;
    }
  }

  /** The keys of `m` that end up at `k`. */
  ghost function Fibre<K>(m: map<K, real>, pairs: seq<Pair<K>>, k: K): map<K, real> {
    map j | j in m && Goes(pairs, j) == k :: m[j]
  }

  ghost predicate Apart<K>(pairs: seq<Pair<K>>) {
    forall i :: 0 <= i < |pairs| ==> pairs[i].dead != pairs[i].target
  }

  lemma {:induction false} ShiftKeepsTotal<K>(m: map<K, real>, p: Pair<K>)
    requires p.dead != p.target
    ensures Total(Shift(m, p)) == Total(m)
  {
    if p.dead in m {
      var rest, after := m - {p.dead}, Shift(m, p);
      TotalSplit(m, p.dead);
      TotalSplit(after, p.target);
      if p.target in m {
        TotalSplit(rest, p.target);
        assert after - {p.target} == rest - {p.target};
      } else {
        assert after - {p.target} == rest;
      }
    }
  }

  lemma {:induction false} ShiftEachKeepsTotal<K>(m: map<K, real>, pairs: seq<Pair<K>>)
    requires Apart(pairs)
    ensures Total(ShiftEach(m, pairs)) == Total(m)
  {
    if pairs != [] {
      ShiftEachKeepsTotal(m, pairs[..|pairs| - 1]);
      ShiftKeepsTotal(ShiftEach(m, pairs[..|pairs| - 1]), pairs[|pairs| - 1]);
    }
  }

  /** Moving weights one pair after the other gives each key the sum of all keys that end up there. */
  lemma {:induction false} Pushforward<K>(m: map<K, real>, pairs: seq<Pair<K>>, k: K)
    requires Apart(pairs)
    ensures k in ShiftEach(m, pairs) <==> Fibre(m, pairs, k) != map[]
    ensures k in ShiftEach(m, pairs) ==> ShiftEach(m, pairs)[k] == Total(Fibre(m, pairs, k))
  {
    if pairs == [] {
      if k in m {
        assert Fibre(m, pairs, k) == map[k := m[k]];
        TotalSplit(map[k := m[k]], k);
        assert map[k := m[k]] - {k} == map[];
      }
    } else {
      var front, p := pairs[..|pairs| - 1], pairs[|pairs| - 1];
      Pushforward(m, front, k);
      if k == p.target {
        Pushforward(m, front, p.dead);
        var here, there := Fibre(m, front, k), Fibre(m, front, p.dead);
        TotalJoin(Fibre(m, pairs, k), here, there);
      } else if k == p.dead {
        assert Fibre(m, pairs, k) == map[];
      } else {
        assert Fibre(m, pairs, k) == Fibre(m, front, k);
      }
    }
  }

  /** No pair's target is a dead key. */
  ghost predicate Disjoint<K>(pairs: seq<Pair<K>>) {
    forall i, j :: 0 <= i < |pairs| && 0 <= j < |pairs| ==> pairs[i].dead != pairs[j].target
  }

  /** When no target is a dead key, the first pair that names a key decides where it goes. */
  lemma {:induction false} FirstDecides<K>(pairs: seq<Pair<K>>, k: K, i: nat)
    requires Disjoint(pairs) && i <= |pairs|
    requires forall j :: 0 <= j < i ==> pairs[j].dead != k
    requires i < |pairs| ==> pairs[i].dead == k
    ensures Goes(pairs, k) == if i < |pairs| then pairs[i].target else k
  {
    if pairs != [] {
      var front := pairs[..|pairs| - 1];
      assert forall j :: 0 <= j < |front| ==> front[j] == pairs[j];
      FirstDecides(front, k, if i < |front| then i else |front|);
    }
  }
}
