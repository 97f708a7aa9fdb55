/** Grouping a list by an optional key, as a dictionary of lists does, and the fact that nothing is
    lost or doubled when the groups of distinct keys are listed one after the other. */
module Grouping {
  import opened Wrappers

  /** The items whose key is `k`, in order. */
  function Select<T, K(==)>(items: seq<T>, key: T -> Option<K>, k: Option<K>): seq<T> {
    if items == [] then []
    else
      var front := Select(items[..|items| - 1], key, k);
      var last := items[|items| - 1];
      if key(last) == k then front + [last] else front
  }

  /** The groups of the listed keys, one after the other. */
  function Gather<T, K(==)>(items: seq<T>, key: T -> Option<K>, ks: seq<K>): seq<T> {
    if ks == [] then []
    else Gather(items, key, ks[..|ks| - 1]) + Select(items, key, Some(ks[|ks| - 1]))
  }

  /** The keys that occur, in order of first appearance. */
  function Keys<T, K(==)>(items: seq<T>, key: T -> Option<K>): seq<K> {
    if items == [] then []
    else
      var front := Keys(items[..|items| - 1], key);
      match key(items[|items| - 1])
      case None => front
      case Some(k) => if k in front then front else front + [k]
  }

  predicate Distinct<K(==)>(ks: seq<K>) {
    forall i, j :: 0 <= i < j < |ks| ==> ks[i] != ks[j]
  }

  lemma DistinctLast<K>(front: seq<K>, k: K)
    requires Distinct(front + [k])
    ensures k !in front
  {
    assert (front + [k])[|front|] == k;
    assert forall i :: 0 <= i < |front| ==> (front + [k])[i] == front[i];
  }

  lemma DistinctFront<K>(front: seq<K>, all: seq<K>)
    requires front <= all && Distinct(all)
    ensures Distinct(front)
  {}

  lemma {:induction false} SelectMembers<T, K>(items: seq<T>, key: T -> Option<K>, k: Option<K>)
    ensures forall x :: x in Select(items, key, k) <==> x in items && key(x) == k
  {
    if items != [] {
      SelectMembers(items[..|items| - 1], key, k);
      assert items == items[..|items| - 1] + [items[|items| - 1]];
    }
  }

  lemma {:induction false} KeysSpec<T, K>(items: seq<T>, key: T -> Option<K>)
    ensures Distinct(Keys(items, key))
    ensures forall k :: k in Keys(items, key) <==> exists x :: x in items && key(x) == Some(k)
  {
    if items != [] {
      var front, last := items[..|items| - 1], items[|items| - 1];
      KeysSpec(front, key);
      assert items == front + [last];
      forall k
        ensures k in Keys(items, key) <==> exists x :: x in items && key(x) == Some(k)
      {
        if k in Keys(items, key) && k !in Keys(front, key) {
          assert last in items && key(last) == Some(k);
        }
      }
    }
  }

  lemma KeysMore<T, K>(items: seq<T>, x: T, key: T -> Option<K>)
    ensures Keys(items + [x], key) ==
            Keys(items, key) + if key(x).Some? && key(x).value !in Keys(items, key) then [key(x).value] else []
  {
    assert (items + [x])[..|items|] == items;
  }

  /** The items filed under a key. */
  function GroupAt<T, K(==)>(groups: map<K, seq<T>>, k: K): seq<T> {
    if k in groups then groups[k] else []
  }

  /** A dictionary of lists, with its keys in order, files the items that have a key. */
  ghost predicate Filed<T, K(!new)>(items: seq<T>, key: T -> Option<K>, order: seq<K>, groups: map<K, seq<T>>) {
    && order == Keys(items, key)
    && (forall k :: k in groups <==> k in order)
    && forall k :: GroupAt(groups, k) == Select(items, key, Some(k))
  }

  lemma FileOneMore<T, K(!new)>(items: seq<T>, key: T -> Option<K>, order: seq<K>, groups: map<K, seq<T>>, x: T)
    requires Filed(items, key, order, groups)
    ensures match key(x)
            case None => Filed(items + [x], key, order, groups)
            case Some(k) => Filed(items + [x], key, if k in groups then order else order + [k],
                                  groups[k := GroupAt(groups, k) + [x]])
  {
    KeysMore(items, x, key);
    forall k: K {
      SelectMore(items, x, key, Some(k));
    }
  }

  lemma {:induction false} GatherOfEmpty<T, K>(key: T -> Option<K>, ks: seq<K>)
    ensures Gather([], key, ks) == []
  {
    if ks != [] {
      GatherOfEmpty(key, ks[..|ks| - 1]);
    }
  }

  lemma SelectMore<T, K>(items: seq<T>, x: T, key: T -> Option<K>, k: Option<K>)
    ensures Select(items + [x], key, k) == Select(items, key, k) + if key(x) == k then [x] else []
  {
    assert (items + [x])[..|items|] == items;
  }

  /** What one more item adds to the listed groups. */
  function Added<T, K(==)>(last: T, key: T -> Option<K>, ks: seq<K>): multiset<T> {
    if key(last).Some? && key(last).value in ks then multiset{last} else multiset{}
  }

  lemma {:induction false} GatherMore<T, K>(items: seq<T>, last: T, key: T -> Option<K>, ks: seq<K>)
    requires Distinct(ks)
    ensures multiset(Gather(items + [last], key, ks)) == multiset(Gather(items, key, ks)) + Added(last, key, ks)
  {
    if ks != [] {
      var front, k := ks[..|ks| - 1], ks[|ks| - 1];
      assert ks == front + [k];
      GatherMore(items, last, key, front);
      DistinctLast(front, k);
      AddedLast(last, key, front, k);
      SelectMore(items, last, key, Some(k));
      SumUp(Gather(items + [last], key, front), Gather(items, key, front), Select(items, key, Some(k)),
            if key(last) == Some(k) then [last] else [], Added(last, key, front));
    }
  }

  lemma AddedLast<T, K>(last: T, key: T -> Option<K>, front: seq<K>, k: K)
    requires k !in front
    ensures Added(last, key, front + [k]) == Added(last, key, front) + if key(last) == Some(k) then multiset{last} else multiset{}
  {}

  lemma SumUp<T>(g': seq<T>, g: seq<T>, s: seq<T>, more: seq<T>, a: multiset<T>)
    requires multiset(g') == multiset(g) + a
    ensures multiset(g' + (s + more)) == multiset(g + s) + (a + multiset(more))
  {}

  /** The groups of distinct keys and the items without a key are exactly the items. */
  lemma {:induction false} Partition<T, K>(items: seq<T>, key: T -> Option<K>, ks: seq<K>)
    requires Distinct(ks)
    requires forall x :: x in items && key(x).Some? ==> key(x).value in ks
    ensures multiset(Gather(items, key, ks)) + multiset(Select(items, key, None)) == multiset(items)
  {
    if items == [] {
      GatherOfEmpty(key, ks);
    } else {
      var front, last := items[..|items| - 1], items[|items| - 1];
      assert items == front + [last];
      Partition(front, key, ks);
      GatherMore(front, last, key, ks);
    }
  }

  lemma {:induction false} GatherConcat<T, K>(items: seq<T>, key: T -> Option<K>, a: seq<K>, b: seq<K>)
    ensures Gather(items, key, a + b) == Gather(items, key, a) + Gather(items, key, b)
  {
    if b == [] {
      assert a + b == a;
    } else {
      GatherConcat(items, key, a, b[..|b| - 1]);
      assert (a + b)[..|a + b| - 1] == a + b[..|b| - 1];
    }
  }

  // ----- one value per item -----

  function Map<T, U>(items: seq<T>, f: T -> U): seq<U> {
    seq(|items|, i requires 0 <= i < |items| => f(items[i]))
  }

  lemma RemoveAt<T>(b: seq<T>, i: nat)
    requires i < |b|
    ensures multiset(b) == multiset(b[..i] + b[i + 1..]) + multiset{b[i]}
  {
    assert b == b[..i] + [b[i]] + b[i + 1..];
  }

  lemma MapWithout<T, U>(b: seq<T>, i: nat, f: T -> U)
    requires i < |b|
    ensures multiset(Map(b, f)) == multiset(Map(b[..i] + b[i + 1..], f)) + multiset{f(b[i])}
  {
    RemoveAt(Map(b, f), i);
    assert Map(b, f)[..i] + Map(b, f)[i + 1..] == Map(b[..i] + b[i + 1..], f);
  }

  lemma {:induction false} MapMultiset<T, U>(a: seq<T>, b: seq<T>, f: T -> U)
    requires multiset(a) == multiset(b)
    ensures multiset(Map(a, f)) == multiset(Map(b, f))
    decreases |a|
  {
    assert |a| == |multiset(a)| == |b|;
    if a != [] {
      var n, x := |a| - 1, a[|a| - 1];
      assert x in multiset(b);
      var i :| 0 <= i < |b| && b[i] == x;
      RemoveAt(a, n);
      RemoveAt(b, i);
      assert multiset(a[..n] + a[n + 1..]) == multiset(a) - multiset{x};
      assert multiset(b[..i] + b[i + 1..]) == multiset(b) - multiset{x};
      MapMultiset(a[..n] + a[n + 1..], b[..i] + b[i + 1..], f);
      MapWithout(a, n, f);
      MapWithout(b, i, f);
    }
  }

  lemma MapMembers<T, U>(items: seq<T>, f: T -> U, y: U)
    requires y in Map(items, f)
    ensures exists x :: x in items && y == f(x)
  {
    var i :| 0 <= i < |items| && Map(items, f)[i] == y;
    assert items[i] in items;
  }

  lemma MapConcat<T, U>(a: seq<T>, b: seq<T>, f: T -> U)
    ensures Map(a + b, f) == Map(a, f) + Map(b, f)
  {}

  /** The values of a function differ exactly when there are as many as items. */
  lemma {:induction false} DistinctIsCount<T, K>(items: seq<T>, f: T -> K)
    ensures (forall i, j :: 0 <= i < j < |items| ==> f(items[i]) != f(items[j])) <==> |Images(items, f)| == |items|
    ensures |Images(items, f)| <= |items|
  {
    if items != [] {
      var front, last := items[..|items| - 1], items[|items| - 1];
      DistinctIsCount(front, f);
      assert items == front + [last];
      assert Images(items, f) == Images(front, f) + {f(last)};
      if f(last) in Images(front, f) {
        var x :| x in front && f(x) == f(last);
        var i :| 0 <= i < |front| && front[i] == x;
        assert f(items[i]) == f(items[|items| - 1]);
      } else {
        forall i | 0 <= i < |front|
          ensures f(items[i]) != f(last)
        {
          assert items[i] in front;
        }
      }
    }
  }

  function Images<T(==), K(==)>(items: seq<T>, f: T -> K): set<K> {
    set x | x in items :: f(x)
  }

  // ----- several values per item -----

  /** The lists produced for the items, one after the other. */
  function Flat<T, U>(items: seq<T>, f: T -> seq<U>): seq<U> {
    if items == [] then [] else Flat(items[..|items| - 1], f) + f(items[|items| - 1])
  }

  lemma FlatMore<T, U>(items: seq<T>, last: T, f: T -> seq<U>)
    ensures Flat(items + [last], f) == Flat(items, f) + f(last)
  {
    assert (items + [last])[..|items|] == items;
  }

  lemma {:induction false} FlatMembers<T, U>(items: seq<T>, f: T -> seq<U>, y: U)
    ensures y in Flat(items, f) <==> exists x :: x in items && y in f(x)
  {
    if items != [] {
      var front, last := items[..|items| - 1], items[|items| - 1];
      FlatMembers(front, f, y);
      assert items == front + [last];
    }
  }

  lemma {:induction false} FlatConcat<T, U>(a: seq<T>, b: seq<T>, f: T -> seq<U>)
    ensures Flat(a + b, f) == Flat(a, f) + Flat(b, f)
  {
    if b == [] {
      assert a + b == a;
    } else {
      FlatConcat(a, b[..|b| - 1], f);
      assert (a + b)[..|a + b| - 1] == a + b[..|b| - 1];
    }
  }

  lemma {:induction false} FlatOfFlat<T, U, V>(xs: seq<T>, f: T -> seq<U>, g: U -> seq<V>, h: T -> seq<V>)
    requires forall x :: x in xs ==> Flat(f(x), g) == h(x)
    ensures Flat(Flat(xs, f), g) == Flat(xs, h)
  {
    if xs != [] {
      var front, last := xs[..|xs| - 1], xs[|xs| - 1];
      FlatOfFlat(front, f, g, h);
      FlatConcat(Flat(front, f), f(last), g);
    }
  }

  lemma {:induction false} FlatOfMap<T, U, V>(xs: seq<T>, f: T -> U, g: U -> seq<V>, h: T -> seq<V>)
    requires forall x :: x in xs ==> g(f(x)) == h(x)
    ensures Flat(Map(xs, f), g) == Flat(xs, h)
  {
    if xs != [] {
      var front, last := xs[..|xs| - 1], xs[|xs| - 1];
      FlatOfMap(front, f, g, h);
      assert Map(xs, f) == Map(front, f) + [f(last)];
      FlatMore(Map(front, f), f(last), g);
    }
  }

  lemma {:induction false} FlatSingles<T, U>(xs: seq<T>, f: T -> seq<U>, h: T -> U)
    requires forall x :: x in xs ==> f(x) == [h(x)]
    ensures Flat(xs, f) == Map(xs, h)
  {
    if xs != [] {
      FlatSingles(xs[..|xs| - 1], f, h);
      assert Map(xs, h) == Map(xs[..|xs| - 1], h) + [h(xs[|xs| - 1])];
    }
  }

  /** One value per mapped item. */
  lemma FlatOfMapSingles<T, U, V>(xs: seq<T>, f: T -> U, g: U -> seq<V>, h: T -> V)
    requires forall x :: x in xs ==> g(f(x)) == [h(x)]
    ensures Flat(Map(xs, f), g) == Map(xs, h)
  {
    FlatOfMap(xs, f, g, x => [h(x)]);
    FlatSingles(xs, x => [h(x)], h);
  }

  lemma {:induction false} FlatEmpty<T, U>(xs: seq<T>, f: T -> seq<U>)
    requires forall x :: x in xs ==> f(x) == []
    ensures Flat(xs, f) == []
  {
    if xs != [] {
      FlatEmpty(xs[..|xs| - 1], f);
    }
  }
}
