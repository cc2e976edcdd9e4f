/** Loops that visit the keys of a dictionary one by one, whatever the order. */
module Visits {
  import opened Prelude

  ghost predicate Distinct<K>(order: seq<K>) {
    order == [] || (Distinct(order[..|order| - 1]) && order[|order| - 1] !in order[..|order| - 1])
  }

  /** `order` is a set in some order, without repetition. */
  ghost predicate Lists<K(!new)>(order: seq<K>, s: set<K>) {
    Distinct(order) && forall k :: k in order <==> k in s
  }

  /** The elements of a set in an order of the runtime's choosing. */
  method InSomeOrder<K(==, !new)>(s: set<K>) returns (order: seq<K>)
    ensures Lists(order, s)
  {
    order := [];
    var rest := s;
    while rest != {}
      invariant rest <= s && Lists(order, s - rest)
      decreases rest
    {
      var k :| k in rest;
      assert (order + [k])[..|order|] == order;
      order, rest := order + [k], rest - {k};
    }
    assert s - rest == s;
  }

  lemma {:induction false} DistinctAt<K>(order: seq<K>, i: nat)
    requires Distinct(order) && i < |order|
    ensures Distinct(order[..i]) && order[i] !in order[..i]
  {
    var n := |order| - 1;
    if i < n {
      DistinctAt(order[..n], i);
      assert order[..n][..i] == order[..i];
    }
  }

  lemma Listed<K(!new)>(order: seq<K>, s: set<K>, i: nat)
    requires Lists(order, s) && i < |order|
    ensures order[i] in s && order[i] !in order[..i] && Distinct(order[..i])
  {
    assert order[i] in order;
    DistinctAt(order, i);
  }

  lemma InPrefix<K>(order: seq<K>, k: K)
    requires order != []
    ensures k in order <==> k in order[..|order| - 1] || k == order[|order| - 1]
  {
    var n := |order| - 1;
    assert order == order[..n] + [order[n]];
  }

  // ----- collecting a result per key -----

  /** What `f` yields for each key, in order. */
  function Along<K, T>(f: K -> seq<T>, order: seq<K>): seq<T> {
    if order == [] then [] else Along(f, order[..|order| - 1]) + f(order[|order| - 1])
  }

  lemma AlongStep<K, T>(f: K -> seq<T>, order: seq<K>, i: nat)
    requires i < |order|
    ensures Along(f, order[..i + 1]) == Along(f, order[..i]) + f(order[i])
  {
    assert order[..i + 1][..i] == order[..i];
  }

  lemma {:induction false} AlongNothing<K, T>(f: K -> seq<T>, order: seq<K>)
    ensures Along(f, order) == [] <==> forall i :: 0 <= i < |order| ==> f(order[i]) == []
  {
    if order != [] {
      var n := |order| - 1;
      AlongNothing(f, order[..n]);
      assert forall i :: 0 <= i < n ==> order[..n][i] == order[i];
    }
  }

  lemma {:induction false} AlongHas<K, T>(f: K -> seq<T>, order: seq<K>, item: T)
    ensures item in Along(f, order) <==> exists i :: 0 <= i < |order| && item in f(order[i])
  {
    if order != [] {
      var n := |order| - 1;
      AlongHas(f, order[..n], item);
      assert forall i :: 0 <= i < n ==> order[..n][i] == order[i];
    }
  }

  /** The items that belong to a key, in order. */
  function Of<K(==), T>(items: seq<T>, key: T -> K, k: K): seq<T> {
    if items == [] then []
    else
      var item := items[|items| - 1];
      Of(items[..|items| - 1], key, k) + if key(item) == k then [item] else []
  }

  lemma {:induction false} OfConcat<K, T>(a: seq<T>, b: seq<T>, key: T -> K, k: K)
    ensures Of(a + b, key, k) == Of(a, key, k) + Of(b, key, k)
  {
    if b == [] {
      assert a + b == a;
    } else {
      var n := |b| - 1;
      assert (a + b)[..|a + b| - 1] == a + b[..n];
      OfConcat(a, b[..n], key, k);
    }
  }

  lemma {:induction false} OfOneKey<K, T>(items: seq<T>, key: T -> K, own: K, k: K)
    requires forall i :: 0 <= i < |items| ==> key(items[i]) == own
    ensures Of(items, key, k) == if k == own then items else []
  {
    if items != [] {
      var n := |items| - 1;
      OfOneKey(items[..n], key, own, k);
      assert items == items[..n] + [items[n]];
    }
  }

  /** Whatever the order, each key gets exactly what `f` yields for it. */
  lemma {:induction false} AlongOf<K, T>(f: K -> seq<T>, key: T -> K, order: seq<K>, k: K)
    requires Distinct(order)
    requires forall x, i :: 0 <= i < |f(x)| ==> key(f(x)[i]) == x
    ensures Of(Along(f, order), key, k) == if k in order then f(k) else []
  {
    if order != [] {
      var n := |order| - 1;
      AlongOf(f, key, order[..n], k);
      InPrefix(order, k);
      OfConcat(Along(f, order[..n]), f(order[n]), key, k);
      OfOneKey(f(order[n]), key, order[n], k);
    }
  }

  // ----- rewriting or dropping each entry -----

  /** Every entry rewritten, or dropped where `g` gives none. */
  function Revised<K, V>(m: map<K, V>, g: (K, V) -> Option<V>): map<K, V> {
    map k | k in m && g(k, m[k]).Some? :: g(k, m[k]).value
  }

  function ReviseOne<K, V>(m: map<K, V>, g: (K, V) -> Option<V>, k: K): map<K, V> {
    if k !in m then m
    else
      match g(k, m[k])
      case Some(v) => m[k := v]
      case None => m - {k}
  }

  /** The entries revised one after the other. */
  function RevisedAlong<K, V>(m: map<K, V>, g: (K, V) -> Option<V>, order: seq<K>): map<K, V> {
    if order == [] then m else ReviseOne(RevisedAlong(m, g, order[..|order| - 1]), g, order[|order| - 1])
  }

  lemma RevisedStep<K, V>(m: map<K, V>, g: (K, V) -> Option<V>, order: seq<K>, i: nat)
    requires i < |order|
    ensures RevisedAlong(m, g, order[..i + 1]) == ReviseOne(RevisedAlong(m, g, order[..i]), g, order[i])
  {
    assert order[..i + 1][..i] == order[..i];
  }

  lemma {:induction false} RevisedApart<K, V>(m: map<K, V>, g: (K, V) -> Option<V>, order: seq<K>, k: K)
    requires Distinct(order)
    ensures
      var after := RevisedAlong(m, g, order);
      if k in order
      then (k in after <==> k in m && g(k, m[k]).Some?) && (k in after ==> g(k, m[k]) == Some(after[k]))
      else (k in after <==> k in m) && (k in m ==> after[k] == m[k])
  {
    if order != [] {
      RevisedApart(m, g, order[..|order| - 1], k);
      InPrefix(order, k);
    }
  }

  /** An entry is still as it was when its turn comes. */
  lemma NotYetRevised<K(!new), V>(m: map<K, V>, g: (K, V) -> Option<V>, order: seq<K>, i: nat)
    requires Lists(order, m.Keys) && i < |order|
    ensures
      var soFar := RevisedAlong(m, g, order[..i]);
      order[i] in m && order[i] in soFar && soFar[order[i]] == m[order[i]]
  {
    Listed(order, m.Keys, i);
    RevisedApart(m, g, order[..i], order[i]);
  }

  /** Whatever the order, revising the entries one by one revises them all. */
  lemma RevisedAll<K(!new), V>(m: map<K, V>, g: (K, V) -> Option<V>, order: seq<K>)
    requires Lists(order, m.Keys)
    ensures RevisedAlong(m, g, order) == Revised(m, g)
  {
    forall k | k in m
      ensures k in RevisedAlong(m, g, order) <==> k in Revised(m, g)
      ensures k in Revised(m, g) ==> RevisedAlong(m, g, order)[k] == Revised(m, g)[k]
    {
      RevisedApart(m, g, order, k);
    }
    forall k | k in RevisedAlong(m, g, order)
      ensures k in m
    {
      RevisedApart(m, g, order, k);
    }
  }
}
