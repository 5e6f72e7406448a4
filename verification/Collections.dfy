/** Multisets of the values of a map and sums over finite sets: the vocabulary of the conservation laws. */
module Collections {

  /** The values of a map, each counted once for every key that holds it. */
  ghost function Values<K, V>(m: map<K, V>): multiset<V> {
    if m == map[] then multiset{}
    else
      var k :| k in m;
      multiset{m[k]} + Values(m - {k})
  }

  lemma {:induction false} ValuesRemove<K, V>(m: map<K, V>, k: K)
    requires k in m
    ensures Values(m) == Values(m - {k}) + multiset{m[k]}
    decreases m.Keys
  {
    var j :| j in m && Values(m) == multiset{m[j]} + Values(m - {j});
    if j == k {
    } else {
      var a, b := m - {j}, m - {k};
      assert a.Keys == m.Keys - {j} && b.Keys == m.Keys - {k};
      assert a[k] == m[k] && b[j] == m[j];
      assert a - {k} == b - {j};
      ValuesRemove(a, k);
      ValuesRemove(b, j);
    }
  }

  lemma ValuesAdd<K, V>(m: map<K, V>, k: K, v: V)
    requires k !in m
    ensures Values(m[k := v]) == Values(m) + multiset{v}
  {
    ValuesRemove(m[k := v], k);
    assert m[k := v] - {k} == m;
  }

  lemma ValuesSet<K, V>(m: map<K, V>, k: K, v: V)
    requires k !in m
    ensures m[k := v].Values == m.Values + {v}
  {
    assert m[k := v][k] == v;
    forall x | x in m.Values ensures x in m[k := v].Values {
      var j :| j in m && m[j] == x;
      assert m[k := v][j] == x;
    }
  }

  lemma {:induction false} ValuesMember<K, V>(m: map<K, V>, v: V)
    ensures v in Values(m) <==> exists k :: k in m && m[k] == v
    decreases |m|
  {
    if m == map[] {
    } else {
      var j :| j in m && Values(m) == multiset{m[j]} + Values(m - {j});
      ValuesMember(m - {j}, v);
      if k :| k in m && m[k] == v && m[j] != v {
        assert k in m - {j};
      }
    }
  }

  lemma Swapped<T>(a: multiset<T>, b: multiset<T>, c: multiset<T>)
    ensures (a + b) + c == (a + c) + b
  {
  }

  lemma Joined<T>(e: multiset<T>, a: multiset<T>, e': multiset<T>, b: multiset<T>, e'': multiset<T>, ab: multiset<T>)
    requires e' == e + a && e'' == e' + b && ab == a + b
    ensures e'' == e + ab
  {
  }

  lemma Chained<X>(h: multiset<X>, a: multiset<X>, e: multiset<X>, h': multiset<X>,
                   a': multiset<X>, e': multiset<X>, h'': multiset<X>)
    requires h + a == e + h' && h' + a' == e' + h''
    ensures h + (a + a') == (e + e') + h''
  {
    assert h + (a + a') == (h + a) + a';
    assert (e + h') + a' == e + (h' + a');
  }

  lemma Regrouped<X>(xs: seq<X>, ys: seq<X>, zs: seq<X>)
    ensures (xs + ys) + zs == xs + (ys + zs)
  {
  }

  lemma ChainedSeq<X>(h: seq<X>, a: seq<X>, e: seq<X>, h': seq<X>, a': seq<X>, e': seq<X>, h'': seq<X>)
    requires h + a == e + h' && h' + a' == e' + h''
    ensures h + (a + a') == (e + e') + h''
  {
    assert h + (a + a') == (h + a) + a';
    assert (e + h') + a' == e + (h' + a');
    assert (e + e') + h'' == e + (e' + h'');
  }

  /** The images of the elements of a bag, each counted as often as the element. */
  ghost function Image<A, B>(m: multiset<A>, f: A -> B): multiset<B>
    decreases |m|
  {
    if m == multiset{} then multiset{}
    else
      var x :| x in m;
      multiset{f(x)} + Image(m - multiset{x}, f)
  }

  lemma {:induction false} ImageRemove<A, B>(m: multiset<A>, f: A -> B, x: A)
    requires x in m
    ensures Image(m, f) == Image(m - multiset{x}, f) + multiset{f(x)}
    decreases |m|
  {
    var y := ImagePick(m, f);
    hide Image;
    if y == x {
    } else {
      var rest := m - multiset{y} - multiset{x};
      OtherOrder(m, x, y);
      ImageRemove(m - multiset{y}, f, x);
      ImageRemove(m - multiset{x}, f, y);
      Swapped(Image(rest, f), multiset{f(x)}, multiset{f(y)});
    }
  }

  lemma ImagePick<A, B>(m: multiset<A>, f: A -> B) returns (y: A)
    requires m != multiset{}
    ensures y in m && Image(m, f) == Image(m - multiset{y}, f) + multiset{f(y)}
  {
    y :| y in m && Image(m, f) == multiset{f(y)} + Image(m - multiset{y}, f);
  }

  lemma OtherOrder<T>(m: multiset<T>, x: T, y: T)
    requires x in m && y in m && x != y
    ensures m - multiset{y} - multiset{x} == m - multiset{x} - multiset{y}
    ensures x in m - multiset{y} && y in m - multiset{x}
    ensures |m - multiset{y}| < |m| && |m - multiset{x}| < |m|
  {
  }

  lemma ImageAdd<A, B>(m: multiset<A>, f: A -> B, x: A)
    ensures Image(m + multiset{x}, f) == Image(m, f) + multiset{f(x)}
  {
    ImageRemove(m + multiset{x}, f, x);
    assert m + multiset{x} - multiset{x} == m;
  }

  lemma {:induction false} ImageUnion<A, B>(a: multiset<A>, b: multiset<A>, f: A -> B)
    ensures Image(a + b, f) == Image(a, f) + Image(b, f)
    decreases |a|
  {
    if a == multiset{} {
      assert a + b == b;
    } else {
      hide Image;
      var x :| x in a;
      var rest := a - multiset{x};
      assert a == rest + multiset{x};
      ImageAdd(rest, f, x);
      ImageAdd(rest + b, f, x);
      ImageUnion(rest, b, f);
      Swapped(rest, multiset{x}, b);
      Swapped(Image(rest, f), multiset{f(x)}, Image(b, f));
    }
  }

  lemma ImageOne<A, B>(x: A, f: A -> B)
    ensures Image(multiset{x}, f) == multiset{f(x)}
  {
    ImageRemove(multiset{x}, f, x);
    assert multiset{x} - multiset{x} == multiset{};
  }

  /** The sum of a weight over a finite set. */
  ghost function Sum<T>(s: set<T>, weight: T -> nat): nat {
    if s == {} then 0
    else
      var x :| x in s;
      weight(x) + Sum(s - {x}, weight)
  }

  lemma {:induction false} SumRemove<T>(s: set<T>, weight: T -> nat, x: T)
    requires x in s
    ensures Sum(s, weight) == weight(x) + Sum(s - {x}, weight)
    decreases |s|
  {
    var y :| y in s && Sum(s, weight) == weight(y) + Sum(s - {y}, weight);
    if y == x {
    } else {
      SumRemove(s - {y}, weight, x);
      SumRemove(s - {x}, weight, y);
      assert s - {y} - {x} == s - {x} - {y};
    }
  }

  lemma {:induction false} SumUnion<T>(a: set<T>, b: set<T>, weight: T -> nat)
    requires a !! b
    ensures Sum(a + b, weight) == Sum(a, weight) + Sum(b, weight)
    decreases |a|
  {
    if a == {} {
      assert a + b == b;
    } else {
      var x :| x in a;
      SumRemove(a, weight, x);
      SumRemove(a + b, weight, x);
      assert a + b - {x} == (a - {x}) + b;
      SumUnion(a - {x}, b, weight);
    }
  }

  function SumSeq<T>(xs: seq<T>, weight: T -> nat): nat {
    if xs == [] then 0 else weight(xs[0]) + SumSeq(xs[1..], weight)
  }

  lemma {:induction false} SumSeqAppend<T>(xs: seq<T>, ys: seq<T>, weight: T -> nat)
    ensures SumSeq(xs + ys, weight) == SumSeq(xs, weight) + SumSeq(ys, weight)
  {
    if xs == [] {
      assert xs + ys == ys;
    } else {
      SumSeqAppend(xs[1..], ys, weight);
      assert (xs + ys)[1..] == xs[1..] + ys;
    }
  }

  /** A list without repetitions drawn from a set weighs at most as much as the set. */
  lemma {:induction false} DistinctSumBound<T>(xs: seq<T>, s: set<T>, weight: T -> nat)
    requires forall i, j :: 0 <= i < j < |xs| ==> xs[i] != xs[j]
    requires forall x :: x in xs ==> x in s
    ensures SumSeq(xs, weight) <= Sum(s, weight)
  {
    if xs == [] {
    } else {
      SumRemove(s, weight, xs[0]);
      DistinctSumBound(xs[1..], s - {xs[0]}, weight);
    }
  }

  lemma HasElement(s: set<int>)
    ensures s == {} || exists x :: x in s
  {
    if forall x :: x !in s {
      assert s == {};
    }
  }
}
