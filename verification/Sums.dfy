/** Sums over the entries of a map. */
module Sums {
  import opened Common

  function At<K(==)>(m: map<K, nat>, k: K): nat {
    if k in m then m[k] else 0
  }

  /** The sum of the entries of a map at some keys; a missing entry is zero. */
  ghost function Total<K(!new)>(m: map<K, nat>, keys: set<K>): nat {
    if keys == {} then 0
    else var x :| x in keys; At(m, x) + Total(m, keys - {x})
  }

  /** A sum does not depend on the order of addition. */
  lemma {:induction false} TotalPick<K(!new)>(m: map<K, nat>, keys: set<K>, x: K)
    requires x in keys
    ensures Total(m, keys) == At(m, x) + Total(m, keys - {x})
    decreases |keys|
  {
    var y :| y in keys && Total(m, keys) == At(m, y) + Total(m, keys - {y});
    if y != x {
      TotalPick(m, keys - {y}, x);
      TotalPick(m, keys - {x}, y);
      assert keys - {y} - {x} == keys - {x} - {y};
    }
  }

  lemma {:induction false} TotalUnion<K(!new)>(m: map<K, nat>, a: set<K>, b: set<K>)
    ensures Total(m, a + b) + Total(m, a * b) == Total(m, a) + Total(m, b)
    decreases |a|
  {
    if a == {} {
      assert a + b == b && a * b == {};
    } else {
      var x :| x in a;
      TotalUnion(m, a - {x}, b);
      TotalPick(m, a, x);
      if x in b {
        assert (a - {x}) + b == a + b && (a * b) - {x} == (a - {x}) * b;
        TotalPick(m, a * b, x);
      } else {
        assert (a + b) - {x} == (a - {x}) + b && a * b == (a - {x}) * b;
        TotalPick(m, a + b, x);
      }
    }
  }

  lemma TotalDisjoint<K(!new)>(m: map<K, nat>, a: set<K>, b: set<K>)
    requires a !! b
    ensures Total(m, a + b) == Total(m, a) + Total(m, b)
  {
    TotalUnion(m, a, b);
    assert a * b == {};
  }

  lemma {:induction false} TotalOutside<K(!new)>(m: map<K, nat>, keys: set<K>)
    requires keys !! m.Keys
    ensures Total(m, keys) == 0
    decreases |keys|
  {
    if keys != {} {
      var x :| x in keys;
      TotalPick(m, keys, x);
      TotalOutside(m, keys - {x});
    }
  }

  /** No set of keys sums to more than the whole map. */
  lemma {:induction false} TotalBound<K(!new)>(m: map<K, nat>, keys: set<K>)
    ensures Total(m, keys) <= Total(m, m.Keys)
  {
    var inside, outside := keys * m.Keys, keys - m.Keys;
    TotalUnion(m, inside, outside);
    assert inside + outside == keys && inside * outside == {};
    TotalOutside(m, outside);
    TotalUnion(m, inside, m.Keys - keys);
    assert inside + (m.Keys - keys) == m.Keys && inside * (m.Keys - keys) == {};
  }

  /** Maps that agree on the keys have the same sum there. */
  lemma {:induction false} TotalSame<K(!new)>(m: map<K, nat>, n: map<K, nat>, keys: set<K>)
    requires forall k :: k in keys ==> At(m, k) == At(n, k)
    ensures Total(m, keys) == Total(n, keys)
    decreases |keys|
  {
    if keys != {} {
      var x :| x in keys;
      TotalPick(m, keys, x);
      TotalPick(n, keys, x);
      TotalSame(m, n, keys - {x});
    }
  }

  /** Replacing an entry changes the sum by the difference. */
  lemma TotalUpdate<K(!new)>(m: map<K, nat>, k: K, v: nat)
    ensures var n := m[k := v]; Total(n, n.Keys) + At(m, k) == Total(m, m.Keys) + v
  {
    var n := m[k := v];
    TotalPick(n, n.Keys, k);
    TotalSame(m, n, n.Keys - {k});
    assert n.Keys - {k} == m.Keys - {k};
    if k in m {
      TotalPick(m, m.Keys, k);
    } else {
      assert m.Keys - {k} == m.Keys;
    }
  }

  lemma {:induction false} TotalAdd<K(!new)>(m: map<K, nat>, n: map<K, nat>, p: map<K, nat>, keys: set<K>)
    requires forall k :: k in keys ==> At(p, k) == At(m, k) + At(n, k)
    ensures Total(p, keys) == Total(m, keys) + Total(n, keys)
    decreases |keys|
  {
    if keys != {} {
      var x :| x in keys;
      TotalPick(m, keys, x);
      TotalPick(n, keys, x);
      TotalPick(p, keys, x);
      TotalAdd(m, n, p, keys - {x});
    }
  }

  lemma {:induction false} TotalZero<K(!new)>(m: map<K, nat>, keys: set<K>)
    requires forall k :: k in keys ==> At(m, k) == 0
    ensures Total(m, keys) == 0
    decreases |keys|
  {
    if keys != {} {
      var x :| x in keys;
      TotalPick(m, keys, x);
      TotalZero(m, keys - {x});
    }
  }

  /** Keys without weight can be left out. */
  lemma TotalPart<K(!new)>(m: map<K, nat>, whole: set<K>, part: set<K>)
    requires part <= whole && forall k :: k in whole && k !in part ==> At(m, k) == 0
    ensures Total(m, whole) == Total(m, part)
  {
    TotalDisjoint(m, part, whole - part);
    TotalZero(m, whole - part);
    assert part + (whole - part) == whole;
  }

  // ----- Tables -----

  function Row<K>(g: (K, K) -> nat, x: K, ys: set<K>): map<K, nat> {
    map y | y in ys :: g(x, y)
  }

  function Column<K>(g: (K, K) -> nat, xs: set<K>, y: K): map<K, nat> {
    map x | x in xs :: g(x, y)
  }

  ghost function RowTotals<K(!new)>(g: (K, K) -> nat, xs: set<K>, ys: set<K>): map<K, nat> {
    map x | x in xs :: Total(Row(g, x, ys), ys)
  }

  ghost function ColumnTotals<K(!new)>(g: (K, K) -> nat, xs: set<K>, ys: set<K>): map<K, nat> {
    map y | y in ys :: Total(Column(g, xs, y), xs)
  }

  /** A table has the same sum by rows and by columns. */
  lemma {:induction false} TotalSwap<K(!new)>(g: (K, K) -> nat, xs: set<K>, ys: set<K>)
    ensures Total(RowTotals(g, xs, ys), xs) == Total(ColumnTotals(g, xs, ys), ys)
    decreases |xs|
  {
    if xs == {} {
      TotalZero(ColumnTotals(g, xs, ys), ys);
    } else {
      var x :| x in xs;
      var rest := xs - {x};
      TotalSwap(g, rest, ys);
      TotalPick(RowTotals(g, xs, ys), xs, x);
      TotalSame(RowTotals(g, xs, ys), RowTotals(g, rest, ys), rest);
      forall y | y in ys
        ensures At(ColumnTotals(g, xs, ys), y) == At(Row(g, x, ys), y) + At(ColumnTotals(g, rest, ys), y)
      {
        TotalPick(Column(g, xs, y), xs, x);
        TotalSame(Column(g, xs, y), Column(g, rest, y), rest);
      }
      TotalAdd(Row(g, x, ys), ColumnTotals(g, rest, ys), ColumnTotals(g, xs, ys), ys);
    }
  }

  /** Tables add up entry by entry. */
  lemma TotalTables<K(!new)>(g: (K, K) -> nat, h: (K, K) -> nat, sum: (K, K) -> nat, xs: set<K>, ys: set<K>)
    requires forall x, y :: x in xs && y in ys ==> sum(x, y) == g(x, y) + h(x, y)
    ensures Total(RowTotals(sum, xs, ys), xs) == Total(RowTotals(g, xs, ys), xs) + Total(RowTotals(h, xs, ys), xs)
  {
    forall x | x in xs
      ensures At(RowTotals(sum, xs, ys), x) == At(RowTotals(g, xs, ys), x) + At(RowTotals(h, xs, ys), x)
    {
      TotalAdd(Row(g, x, ys), Row(h, x, ys), Row(sum, x, ys), ys);
    }
    TotalAdd(RowTotals(g, xs, ys), RowTotals(h, xs, ys), RowTotals(sum, xs, ys), xs);
  }

  /** Accounts that balance one by one balance together. */
  lemma {:induction false} TotalBalance<K(!new)>(a: map<K, nat>, b: map<K, nat>, c: map<K, nat>, d: map<K, nat>,
                                                 e: map<K, nat>, keys: set<K>)
    requires forall k :: k in keys ==> At(a, k) + At(b, k) + At(c, k) == At(d, k) + At(e, k)
    ensures Total(a, keys) + Total(b, keys) + Total(c, keys) == Total(d, keys) + Total(e, keys)
    decreases |keys|
  {
    if keys != {} {
      var x :| x in keys;
      TotalPick(a, keys, x);
      TotalPick(b, keys, x);
      TotalPick(c, keys, x);
      TotalPick(d, keys, x);
      TotalPick(e, keys, x);
      TotalBalance(a, b, c, d, e, keys - {x});
    }
  }

  // ----- Sums over steps -----

  function SumTo(f: nat -> nat, n: nat): nat {
    if n == 0 then 0 else SumTo(f, n - 1) + f(n - 1)
  }

  lemma {:induction false} SumIsZeroIff(f: nat -> nat, n: nat)
    ensures SumTo(f, n) == 0 <==> forall i :: 0 <= i < n ==> f(i) == 0
  {
    if n > 0 {
      SumIsZeroIff(f, n - 1);
    }
  }

  /** Losses that explain each step explain all of them. */
  lemma {:induction false} SumOfLosses(value: nat -> nat, loss: nat -> nat, n: nat)
    requires forall i :: 0 <= i < n ==> value(i + 1) + loss(i) == value(i)
    ensures value(n) + SumTo(loss, n) == value(0)
  {
    if n > 0 {
      SumOfLosses(value, loss, n - 1);
      assert value(n - 1 + 1) + loss(n - 1) == value(n - 1);
    }
  }

  // ----- Sums over lists -----

  /** A weight, and the key that it counts for, if any. */
  datatype Post<K> = Post(key: Option<K>, weight: nat)

  function Weight<K>(posts: seq<Post<K>>): nat {
    if posts == [] then 0 else Weight(posts[..|posts| - 1]) + posts[|posts| - 1].weight
  }

  function WeightAt<K(==)>(posts: seq<Post<K>>, k: K): nat {
    if posts == [] then 0
    else WeightAt(posts[..|posts| - 1], k) + if posts[|posts| - 1].key == Some(k) then posts[|posts| - 1].weight else 0
  }

  predicate Outside<K(==)>(key: Option<K>, keys: set<K>) {
    key.None? || key.value !in keys
  }

  function WeightOutside<K(==)>(posts: seq<Post<K>>, keys: set<K>): nat {
    if posts == [] then 0
    else WeightOutside(posts[..|posts| - 1], keys)
         + if Outside(posts[|posts| - 1].key, keys) then posts[|posts| - 1].weight else 0
  }

  function Weights<K(==)>(posts: seq<Post<K>>, keys: set<K>): map<K, nat> {
    map k | k in keys :: WeightAt(posts, k)
  }

  lemma {:induction false} WeightAdd<K>(a: seq<Post<K>>, b: seq<Post<K>>)
    ensures Weight(a + b) == Weight(a) + Weight(b)
  {
    if b == [] {
      assert a + b == a;
    } else {
      WeightAdd(a, b[..|b| - 1]);
      assert (a + b)[..|a + b| - 1] == a + b[..|b| - 1];
    }
  }

  lemma {:induction false} WeightAtAdd<K>(a: seq<Post<K>>, b: seq<Post<K>>, k: K)
    ensures WeightAt(a + b, k) == WeightAt(a, k) + WeightAt(b, k)
  {
    if b == [] {
      assert a + b == a;
    } else {
      WeightAtAdd(a, b[..|b| - 1], k);
      assert (a + b)[..|a + b| - 1] == a + b[..|b| - 1];
    }
  }

  lemma WeightPush<K>(posts: seq<Post<K>>, p: Post<K>, k: K)
    ensures Weight(posts + [p]) == Weight(posts) + p.weight
    ensures WeightAt(posts + [p], k) == WeightAt(posts, k) + if p.key == Some(k) then p.weight else 0
  {
    assert (posts + [p])[..|posts|] == posts;
  }

  /** The weight of a list is what counts for some keys, and the rest. */
  lemma {:induction false} WeightSplits<K(!new)>(posts: seq<Post<K>>, keys: set<K>)
    ensures Weight(posts) == Total(Weights(posts, keys), keys) + WeightOutside(posts, keys)
  {
    if posts == [] {
      TotalZero(Weights(posts, keys), keys);
    } else {
      var front, last := posts[..|posts| - 1], posts[|posts| - 1];
      WeightSplits(front, keys);
      if Outside(last.key, keys) {
        TotalSame(Weights(posts, keys), Weights(front, keys), keys);
      } else {
        WeightCounts(posts, keys, last.key.value);
      }
    }
  }

  lemma WeightCounts<K(!new)>(posts: seq<Post<K>>, keys: set<K>, k: K)
    requires k in keys && posts != [] && posts[|posts| - 1].key == Some(k)
    ensures Total(Weights(posts, keys), keys)
      == Total(Weights(posts[..|posts| - 1], keys), keys) + posts[|posts| - 1].weight
  {
    var front := posts[..|posts| - 1];
    TotalPick(Weights(posts, keys), keys, k);
    TotalPick(Weights(front, keys), keys, k);
    TotalSame(Weights(posts, keys), Weights(front, keys), keys - {k});
  }
}
