/**
 * The retry map of either side (pubchain/types.go:67-94, joltifybridge/types.go:79-106). Its keys are freshly allocated
 * numbers compared by address, so it is a bag: equal hashes coexist. The two copies in the source differ only in the
 * request type and in the hash the caller stores under.
 */
module RetryBags {
  import opened Wrappers

  class HashKey {
    const value: nat

    constructor (value: nat)
      ensures this.value == value
    {
      this.value := value;
    }
  }

  /** The key PopItem takes: a largest one, if it is positive. */
  ghost predicate Top<T>(m: map<HashKey, T>, k: HashKey) {
    k in m && k.value > 0 && forall j :: j in m ==> j.value <= k.value
  }

  class RetryBag<T> {
    var items: map<HashKey, T>

    constructor ()
      ensures items == map[]
    {
      items := map[];
    }

    method AddItem(hash: nat, req: T) returns (ghost key: HashKey)
      modifies this
      ensures fresh(key) && key.value == hash && key !in old(items)
      ensures items == old(items)[key := req] && |items| == |old(items)| + 1
    {
      var k := new HashKey(hash);
      items := items[k := req];
      key := k;
    }

    /** None exactly when no positive hash is stored; otherwise one entry of largest hash is taken, and only that. */
    method PopItem() returns (item: Option<T>, ghost key: HashKey?)
      modifies this
      ensures item.None? <==> forall k :: k in old(items) ==> k.value == 0
      ensures item.None? ==> items == old(items)
      ensures item.Some? ==>
                && key != null && Top(old(items), key) && item.value == old(items)[key]
                && items == old(items) - {key} && |items| == |old(items)| - 1
    {
      var max, best: HashKey? := 0, null;
      var todo := items.Keys;
      while todo != {}
        invariant todo <= items.Keys
        invariant forall k :: k in items && k !in todo ==> k.value <= max
        invariant if best == null then max == 0 else best in items && best.value == max > 0
      {
        var k :| k in todo;
        todo := todo - {k};
        if max < k.value {
          max, best := k.value, k;
        }
      }
      key := best;
      if best == null {
        return None, null;
      }
      item := Some(items[best]);
      items := items - {best};
      assert items.Keys == old(items).Keys - {best};
    }

    method Size() returns (n: nat)
      ensures n == |items|
    {
      n := 0;
      var todo := items.Keys;
      while todo != {}
        invariant n + |todo| == |items|
      {
        var k :| k in todo;
        todo := todo - {k};
        n := n + 1;
      }
    }
  }

  /** Popping the keys `ks` in turn takes the bag from `m` to `m'`. */
  ghost predicate Pops<T(!new)>(m: map<HashKey, T>, ks: seq<HashKey>, m': map<HashKey, T>)
    decreases |ks|
  {
    if ks == [] then m' == m else Top(m, ks[0]) && Pops(m - {ks[0]}, ks[1..], m')
  }

  ghost function Elements<K>(ks: seq<K>): set<K> {
    set k | k in ks
  }

  lemma ElementsCons<K>(ks: seq<K>)
    requires ks != []
    ensures Elements(ks) == {ks[0]} + Elements(ks[1..])
  {
    assert ks == [ks[0]] + ks[1..];
  }

  lemma FirstPop<T(!new)>(m: map<HashKey, T>, ks: seq<HashKey>, m': map<HashKey, T>)
    requires Pops(m, ks, m')
    ensures ks == [] ==> m' == m && Elements(ks) == {}
    ensures ks != [] ==>
              var rest := m - {ks[0]};
              && ks[0] in m && rest.Keys == m.Keys - {ks[0]} && |rest| == |m| - 1
              && Pops(rest, ks[1..], m') && Elements(ks) == {ks[0]} + Elements(ks[1..])
  {
    if ks != [] {
      assert (m - {ks[0]}).Keys == m.Keys - {ks[0]};
      ElementsCons(ks);
    }
  }

  lemma {:induction false} PopsRemove<T(!new)>(m: map<HashKey, T>, ks: seq<HashKey>, m': map<HashKey, T>)
    requires Pops(m, ks, m')
    ensures m'.Keys == m.Keys - Elements(ks) && Elements(ks) <= m.Keys
    ensures forall k :: k in m' ==> m'[k] == m[k]
    ensures |m'| + |ks| == |m|
    decreases |ks|
  {
    hide Pops, Elements;
    FirstPop(m, ks, m');
    if ks == [] {
    } else {
      PopsRemove(m - {ks[0]}, ks[1..], m');
    }
  }

  lemma FirstIsLargest<T(!new)>(m: map<HashKey, T>, ks: seq<HashKey>, m': map<HashKey, T>)
    requires Pops(m, ks, m') && ks != []
    ensures Pops(m - {ks[0]}, ks[1..], m')
    ensures forall k :: k in ks[1..] ==> k != ks[0] && k.value <= ks[0].value
    ensures forall k :: k in m' ==> k.value <= ks[0].value
  {
    var rest := m - {ks[0]};
    assert rest.Keys == m.Keys - {ks[0]};
    PopsRemove(rest, ks[1..], m');
    forall k | k in ks[1..] ensures k in rest {
      assert k in Elements(ks[1..]);
    }
  }

  lemma {:induction false} PopsOrder<T(!new)>(m: map<HashKey, T>, ks: seq<HashKey>, m': map<HashKey, T>)
    requires Pops(m, ks, m')
    ensures forall i, j :: 0 <= i < j < |ks| ==> ks[i] != ks[j] && ks[i].value >= ks[j].value
    ensures forall i, k :: 0 <= i < |ks| && k in m' ==> k.value <= ks[i].value
    decreases |ks|
  {
    if ks == [] {
    } else {
      hide Pops, Top, Elements;
      FirstIsLargest(m, ks, m');
      PopsOrder(m - {ks[0]}, ks[1..], m');
      assert ks == [ks[0]] + ks[1..];
    }
  }

  lemma {:induction false} PopsPermute<T(!new)>(m: map<HashKey, T>, ks: seq<HashKey>, m': map<HashKey, T>)
    requires Pops(m, ks, m')
    ensures multiset(ks) + multiset(m'.Keys) == multiset(m.Keys)
    decreases |ks|
  {
    if ks == [] {
    } else {
      var rest := m - {ks[0]};
      assert rest.Keys == m.Keys - {ks[0]};
      PopsPermute(rest, ks[1..], m');
      assert ks == [ks[0]] + ks[1..];
      assert multiset(m.Keys) == multiset(rest.Keys) + multiset{ks[0]};
    }
  }

  /**
   * A max-priority queue: any pops take pairwise different entries in descending order, leave exactly the others
   * untouched, and leave nothing larger than what was taken. As many pops as there are entries empty the bag.
   */
  lemma PopsDescend<T(!new)>(m: map<HashKey, T>, ks: seq<HashKey>, m': map<HashKey, T>)
    requires Pops(m, ks, m')
    ensures forall i, j :: 0 <= i < j < |ks| ==> ks[i] != ks[j] && ks[i].value >= ks[j].value
    ensures forall i, k :: 0 <= i < |ks| && k in m' ==> k.value <= ks[i].value
    ensures multiset(ks) + multiset(m'.Keys) == multiset(m.Keys)
    ensures forall k :: k in m' ==> k in m && m'[k] == m[k]
    ensures |ks| == |m| ==> m' == map[] && multiset(ks) == multiset(m.Keys)
  {
    PopsOrder(m, ks, m');
    PopsRemove(m, ks, m');
    PopsPermute(m, ks, m');
    if |ks| == |m| {
      assert m'.Keys == {};
    }
  }
}
