/**
 The request-level recency order shared by the coordinator's three caches: an ordered
 dictionary from requests to entries, with the entry weights summed and whole requests
 evicted oldest first.
 */
module Lru {
  import opened Types

  // ---------- weights summed over a dictionary ----------

  /** The sum of the weights of all values of a dictionary. */
  ghost function Total<K, V>(m: map<K, V>, w: V -> nat): nat {
    if m == map[] then 0
    else
      var k :| k in m;
      w(m[k]) + Total(m - {k}, w)
  }

  lemma SomeKey<K, V>(m: map<K, V>) returns (k: K)
    requires m != map[]
    ensures k in m
  {
    k :| k in m;
  }

  lemma {:induction false} TotalRemove<K, V>(m: map<K, V>, w: V -> nat, k: K)
    requires k in m
    ensures Total(m, w) == w(m[k]) + Total(m - {k}, w)
    decreases |m|
  {
    var j :| j in m && Total(m, w) == w(m[j]) + Total(m - {j}, w);
    if j != k {
      TotalRemove(m - {j}, w, k);
      TotalRemove(m - {k}, w, j);
      assert m - {j} - {k} == m - {k} - {j};
    }
  }

  lemma TotalUpdate<K, V>(m: map<K, V>, w: V -> nat, k: K, v: V)
    ensures Total(m[k := v], w) == Total(m - {k}, w) + w(v)
    ensures k !in m ==> Total(m[k := v], w) == Total(m, w) + w(v)
    ensures k in m ==> Total(m[k := v], w) == Total(m, w) - w(m[k]) + w(v)
  {
    TotalRemove(m[k := v], w, k);
    assert m[k := v] - {k} == m - {k};
    if k in m {
      TotalRemove(m, w, k);
    } else {
      assert m - {k} == m;
    }
  }

  // ---------- the ordered dictionary ----------

  datatype Store<V> = Store(order: seq<RequestId>, entries: map<RequestId, V>)

  ghost predicate Distinct(s: seq<RequestId>) {
    forall i, j :: 0 <= i < j < |s| ==> s[i] != s[j]
  }

  ghost predicate WellFormed<V>(s: Store<V>) {
    && Distinct(s.order)
    && (forall r :: r in s.order <==> r in s.entries)
  }

  function Without(order: seq<RequestId>, r: RequestId): (o: seq<RequestId>)
    ensures forall x :: x in o <==> x in order && x != r
    ensures |o| <= |order| && (r in order ==> |o| < |order|) && (r !in order ==> o == order)
  {
    if order == [] then []
    else if order[0] == r then Without(order[1..], r)
    else [order[0]] + Without(order[1..], r)
  }

  lemma {:induction false} WithoutDistinct(order: seq<RequestId>, r: RequestId)
    requires Distinct(order)
    ensures Distinct(Without(order, r))
  {
    if order != [] {
      WithoutDistinct(order[1..], r);
      assert order[0] !in order[1..];
    }
  }

  /** Make r the most recent request, entering `initial` if it is new. */
  function Touched<V>(s: Store<V>, r: RequestId, initial: V): Store<V> {
    Store(Without(s.order, r) + [r], if r in s.entries then s.entries else s.entries[r := initial])
  }

  function Removed<V>(s: Store<V>, r: RequestId): Store<V> {
    Store(Without(s.order, r), s.entries - {r})
  }

  function Updated<V>(s: Store<V>, r: RequestId, v: V): Store<V> {
    s.(entries := s.entries[r := v])
  }

  /** Request r leaves the order, and the others follow each other as before. */
  ghost predicate LeftOut(before: seq<RequestId>, after: seq<RequestId>, r: RequestId) {
    if r in before then exists a, b :: before == a + [r] + b && after == a + b else after == before
  }

  /** Request r comes last, and the others follow each other as before. */
  ghost predicate MadeNewest(before: seq<RequestId>, after: seq<RequestId>, r: RequestId) {
    after != [] && after[|after| - 1] == r && LeftOut(before, after[..|after| - 1], r)
  }

  lemma {:induction false} WithoutSplits(order: seq<RequestId>, r: RequestId)
      returns (a: seq<RequestId>, b: seq<RequestId>)
    requires Distinct(order) && r in order
    ensures order == a + [r] + b && Without(order, r) == a + b
  {
    if order[0] == r {
      a, b := [], order[1..];
      assert r !in order[1..];
    } else {
      var c, d := WithoutSplits(order[1..], r);
      a, b := [order[0]] + c, d;
    }
  }

  lemma {:induction false} WithoutLeavesOut(order: seq<RequestId>, r: RequestId)
    requires Distinct(order)
    ensures LeftOut(order, Without(order, r), r)
  {
    if r in order {
      var a, b := WithoutSplits(order, r);
    }
  }

  lemma TouchedIsNewest<V>(s: Store<V>, r: RequestId, initial: V)
    requires WellFormed(s)
    ensures MadeNewest(s.order, Touched(s, r, initial).order, r)
  {
    WithoutLeavesOut(s.order, r);
    assert (Without(s.order, r) + [r])[..|Without(s.order, r)|] == Without(s.order, r);
  }

  lemma {:induction false} TouchedWellFormed<V>(s: Store<V>, r: RequestId, initial: V)
    requires WellFormed(s)
    ensures WellFormed(Touched(s, r, initial)) && WellFormed(Removed(s, r))
  {
    WithoutDistinct(s.order, r);
  }

  /** The store without its oldest request. */
  function PopOldest<V>(s: Store<V>): Store<V>
    requires s.order != []
  {
    Store(s.order[1..], s.entries - {s.order[0]})
  }

  lemma PopOldestWellFormed<V>(s: Store<V>)
    requires WellFormed(s) && s.order != []
    ensures WellFormed(PopOldest(s))
  {}

  /** The store without its n oldest requests. */
  function Dropped<V>(s: Store<V>, n: nat): Store<V>
    requires n <= |s.order|
    decreases n
  {
    if n == 0 then s else Dropped(PopOldest(s), n - 1)
  }

  lemma {:induction false} DroppedOrder<V>(s: Store<V>, n: nat)
    requires n <= |s.order|
    ensures Dropped(s, n).order == s.order[n..]
    decreases n
  {
    if n > 0 {
      DroppedOrder(PopOldest(s), n - 1);
    }
  }

  lemma {:induction false} DroppedEntries<V>(s: Store<V>, n: nat)
    requires n <= |s.order|
    ensures forall r :: r in Dropped(s, n).entries ==> r in s.entries && Dropped(s, n).entries[r] == s.entries[r]
    decreases n
  {
    if n > 0 {
      DroppedEntries(PopOldest(s), n - 1);
    }
  }

  lemma {:induction false} DroppedWellFormed<V>(s: Store<V>, n: nat)
    requires WellFormed(s) && n <= |s.order|
    ensures WellFormed(Dropped(s, n))
    decreases n
  {
    if n > 0 {
      PopOldestWellFormed(s);
      DroppedWellFormed(PopOldest(s), n - 1);
    }
  }

  /**
   What eviction leaves: the oldest request is dropped while the weights exceed `cap` and
   more than `keep` requests are held.
   */
  ghost function Evicted<V>(s: Store<V>, w: V -> nat, cap: nat, keep: nat): Store<V>
    decreases |s.order|
  {
    if Total(s.entries, w) <= cap || |s.order| <= keep then s
    else Evicted(PopOldest(s), w, cap, keep)
  }

  /** Eviction drops the n oldest requests for the least n that meets the cap. */
  lemma {:induction false} EvictedIsDropped<V>(s: Store<V>, w: V -> nat, cap: nat, keep: nat) returns (n: nat)
    ensures n <= |s.order| && Evicted(s, w, cap, keep) == Dropped(s, n)
    ensures Total(Dropped(s, n).entries, w) <= cap || |s.order| - n <= keep
    ensures n > 0 ==> Total(Dropped(s, n - 1).entries, w) > cap && |s.order| - n >= keep
    decreases |s.order|
  {
    if Total(s.entries, w) <= cap || |s.order| <= keep {
      n := 0;
    } else {
      var m := EvictedIsDropped(PopOldest(s), w, cap, keep);
      n := m + 1;
    }
  }

  lemma {:induction false} EvictedEntries<V>(s: Store<V>, w: V -> nat, cap: nat, keep: nat)
    ensures var t := Evicted(s, w, cap, keep);
      forall r :: r in t.entries ==> r in s.entries && t.entries[r] == s.entries[r]
  {
    var n := EvictedIsDropped(s, w, cap, keep);
    DroppedEntries(s, n);
  }

  /** What survives eviction is unchanged, and meets the cap unless only `keep` requests are left. */
  lemma {:induction false} EvictedOutcome<V>(s: Store<V>, w: V -> nat, cap: nat, keep: nat)
    requires WellFormed(s)
    ensures var t := Evicted(s, w, cap, keep);
      && WellFormed(t)
      && (forall r :: r in t.entries ==> r in s.entries && t.entries[r] == s.entries[r])
      && (Total(t.entries, w) <= cap || |t.order| <= keep)
  {
    var n := EvictedIsDropped(s, w, cap, keep);
    DroppedOrder(s, n);
    DroppedEntries(s, n);
    DroppedWellFormed(s, n);
  }

  /** A store that keeps at least one request never evicts the most recent one. */
  lemma {:induction false} EvictedKeepsNewest<V>(s: Store<V>, w: V -> nat, cap: nat, keep: nat)
    requires WellFormed(s) && s.order != [] && keep > 0
    ensures var t := Evicted(s, w, cap, keep); var r := s.order[|s.order| - 1];
      r in t.entries && t.entries[r] == s.entries[r]
  {
    var n := EvictedIsDropped(s, w, cap, keep);
    DroppedOrder(s, n);
    DroppedEntries(s, n);
    DroppedWellFormed(s, n);
    assert Dropped(s, n).order[|s.order| - 1 - n] == s.order[|s.order| - 1];
  }
}
