/**
 In which order the search tries the pipelines, which decides between candidates that the
 tolerance does not tell apart: small subsets first, and otherwise by the devices' positions,
 first of the subset and then of the order. None is tried twice.
 */
module EnumerationOrder {
  import opened DeviceOrders

  /** x stands before y. */
  ghost predicate Earlier<T>(s: seq<T>, x: T, y: T) {
    exists i, j :: 0 <= i < j < |s| && s[i] == x && s[j] == y
  }

  /** Where they differ first, a has the earlier element. */
  ghost predicate Precedes<T>(s: seq<T>, a: seq<T>, b: seq<T>) {
    exists i :: DiffersAt(s, a, b, i)
  }

  ghost predicate DiffersAt<T>(s: seq<T>, a: seq<T>, b: seq<T>, i: int) {
    0 <= i < |a| && i < |b| && a[..i] == b[..i] && Earlier(s, a[i], b[i])
  }

  ghost predicate Ascending<T>(s: seq<T>, cs: seq<seq<T>>) {
    forall i, j :: 0 <= i < j < |cs| ==> Precedes(s, cs[i], cs[j])
  }

  // ---------- subsets ----------

  lemma EarlierLater<T>(s: seq<T>, x: T, y: T)
    requires s != [] && Earlier(s[1..], x, y)
    ensures Earlier(s, x, y)
  {
    var i, j :| 0 <= i < j < |s[1..]| && s[1..][i] == x && s[1..][j] == y;
    assert s[i + 1] == x && s[j + 1] == y;
  }

  lemma PrecedesPrefixed<T>(s: seq<T>, t: seq<T>, x: T, a: seq<T>, b: seq<T>)
    requires Precedes(t, a, b) && forall y, z :: Earlier(t, y, z) ==> Earlier(s, y, z)
    ensures Precedes(s, [x] + a, [x] + b)
  {
    var i :| DiffersAt(t, a, b, i);
    assert ([x] + a)[..i + 1] == [x] + a[..i] && ([x] + b)[..i + 1] == [x] + b[..i];
    assert DiffersAt(s, [x] + a, [x] + b, i + 1);
  }

  lemma PrefixedAscends<T>(s: seq<T>, t: seq<T>, x: T, cs: seq<seq<T>>)
    requires Ascending(t, cs) && forall y, z :: Earlier(t, y, z) ==> Earlier(s, y, z)
    ensures Ascending(s, Prefixed(x, cs))
  {
    forall i, j | 0 <= i < j < |cs|
      ensures Precedes(s, Prefixed(x, cs)[i], Prefixed(x, cs)[j])
    {
      PrecedesPrefixed(s, t, x, cs[i], cs[j]);
    }
  }

  /** What begins with x comes before what begins with a later element. */
  lemma JoinedAscends<T>(s: seq<T>, cs: seq<seq<T>>, ds: seq<seq<T>>, x: T)
    requires Ascending(s, cs) && Ascending(s, ds)
    requires forall c :: c in cs ==> c != [] && c[0] == x
    requires forall d :: d in ds ==> d != [] && Earlier(s, x, d[0])
    ensures Ascending(s, cs + ds)
  {
    var all := cs + ds;
    forall i, j | 0 <= i < j < |all|
      ensures Precedes(s, all[i], all[j])
    {
      if i < |cs| <= j {
        assert all[i] in cs && all[j] in ds;
        assert DiffersAt(s, all[i], all[j], 0);
      } else if j < |cs| {
        assert all[i] == cs[i] && all[j] == cs[j];
      } else {
        assert all[i] == ds[i - |cs|] && all[j] == ds[j - |cs|];
      }
    }
  }

  lemma {:induction false} CombinationsAscend<T>(s: seq<T>, k: nat)
    requires NoRepeats(s)
    ensures Ascending(s, Combinations(s, k))
  {
    if k > 0 && s != [] {
      var rest := s[1..];
      CombinationsAscend(rest, k - 1);
      CombinationsAscend(rest, k);
      forall y, z | Earlier(rest, y, z)
        ensures Earlier(s, y, z)
      {
        EarlierLater(s, y, z);
      }
      PrefixedAscends(s, rest, s[0], Combinations(rest, k - 1));
      forall i, j | 0 <= i < j < |Combinations(rest, k)|
        ensures Precedes(s, Combinations(rest, k)[i], Combinations(rest, k)[j])
      {
        var n :| DiffersAt(rest, Combinations(rest, k)[i], Combinations(rest, k)[j], n);
        assert DiffersAt(s, Combinations(rest, k)[i], Combinations(rest, k)[j], n);
      }
      forall d | d in Combinations(rest, k)
        ensures d != [] && Earlier(s, s[0], d[0])
      {
        CombinationIsPart(rest, k, d);
        assert d[0] in d;
        var n :| 0 <= n < |rest| && rest[n] == d[0];
        assert s[n + 1] == d[0];
      }
      JoinedAscends(s, Prefixed(s[0], Combinations(rest, k - 1)), Combinations(rest, k), s[0]);
    }
  }

  // ---------- the orders of a subset ----------

  lemma EarlierWithout<T>(s: seq<T>, n: nat, x: T, y: T)
    requires n < |s| && Earlier(Without(s, n), x, y)
    ensures Earlier(s, x, y)
  {
    var r := Without(s, n);
    var i, j :| 0 <= i < j < |r| && r[i] == x && r[j] == y;
    assert r == s[..n] + s[n + 1..];
    var a, b := if i < n then i else i + 1, if j < n then j else j + 1;
    assert s[a] == x && s[b] == y;
  }

  lemma {:induction false} HeadsFrom<T>(s: seq<T>, i: nat, o: seq<T>)
    requires i <= |s| && o in PermutationsFrom(s, i)
    ensures o != [] && exists n :: i <= n < |s| && s[n] == o[0]
    decreases |s| - i
  {
    PrefixedMember(s[i], Permutations(Without(s, i)), o);
    if o !in Prefixed(s[i], Permutations(Without(s, i))) {
      HeadsFrom(s, i + 1, o);
    }
  }

  lemma {:induction false} PermutationsAscend<T>(s: seq<T>)
    ensures Ascending(s, Permutations(s))
    decreases |s|, |s| + 1
  {
    if s != [] {
      PermutationsFromAscend(s, 0);
    }
  }

  lemma {:induction false} PermutationsFromAscend<T>(s: seq<T>, i: nat)
    requires i <= |s|
    ensures Ascending(s, PermutationsFrom(s, i))
    decreases |s|, |s| - i
  {
    if i < |s| {
      PermutationsAscend(Without(s, i));
      PermutationsFromAscend(s, i + 1);
      forall y, z | Earlier(Without(s, i), y, z)
        ensures Earlier(s, y, z)
      {
        EarlierWithout(s, i, y, z);
      }
      var tails := Permutations(Without(s, i));
      var cs, ds := Prefixed(s[i], tails), PermutationsFrom(s, i + 1);
      PrefixedAscends(s, Without(s, i), s[i], tails);
      forall d | d in ds
        ensures d != [] && Earlier(s, s[i], d[0])
      {
        HeadsFrom(s, i + 1, d);
      }
      forall c | c in cs
        ensures c != [] && c[0] == s[i]
      {
        PrefixedMember(s[i], tails, c);
      }
      JoinedAscends(s, cs, ds, s[i]);
    }
  }

  // ---------- all of them ----------

  /** Smaller before larger, then by the devices chosen, then by their order. */
  ghost predicate TriedBefore<T>(s: seq<T>, a: seq<T>, b: seq<T>) {
    || |a| < |b|
    || (|a| == |b| && Precedes(s, Chosen(s, a), Chosen(s, b)))
    || (Chosen(s, a) == Chosen(s, b) && Precedes(Chosen(s, a), a, b))
  }

  /** Only membership counts. */
  lemma {:induction false} ChosenByMembers<T>(s: seq<T>, a: seq<T>, b: seq<T>)
    requires forall x :: x in s ==> (x in a <==> x in b)
    ensures Chosen(s, a) == Chosen(s, b)
  {
    if s != [] {
      ChosenByMembers(s[1..], a, b);
    }
  }

  lemma {:induction false} ChosenOfNone<T>(s: seq<T>)
    ensures Chosen(s, []) == []
  {
    if s != [] {
      ChosenOfNone(s[1..]);
    }
  }

  lemma {:induction false} ChosenOfCombination<T>(s: seq<T>, k: nat, c: seq<T>)
    requires NoRepeats(s) && c in Combinations(s, k)
    ensures Chosen(s, c) == c
  {
    if k == 0 {
      ChosenOfNone(s);
    } else {
      var rest := s[1..];
      PrefixedMember(s[0], Combinations(rest, k - 1), c);
      if c in Prefixed(s[0], Combinations(rest, k - 1)) {
        assert c == [s[0]] + c[1..] && s[0] !in rest;
        ChosenByMembers(rest, c, c[1..]);
        ChosenOfCombination(rest, k - 1, c[1..]);
      } else {
        CombinationIsPart(rest, k, c);
        assert s[0] !in rest;
        ChosenOfCombination(rest, k, c);
      }
    }
  }

  lemma {:induction false} OrderOfCombination<T>(s: seq<T>, k: nat, c: seq<T>, o: seq<T>)
    requires NoRepeats(s) && c in Combinations(s, k) && o in Permutations(c)
    ensures |o| == k && Chosen(s, o) == c
  {
    CombinationIsPart(s, k, c);
    PermutationsSound(c, o);
    SameElements(c, o);
    ChosenByMembers(s, o, c);
    ChosenOfCombination(s, k, c);
  }

  ghost predicate AllTriedBefore<T>(s: seq<T>, os: seq<seq<T>>) {
    forall i, j :: 0 <= i < j < |os| ==> TriedBefore(s, os[i], os[j])
  }

  lemma AppendedAfter<T>(s: seq<T>, os: seq<seq<T>>, ps: seq<seq<T>>)
    requires AllTriedBefore(s, os) && AllTriedBefore(s, ps)
    requires forall o, p :: o in os && p in ps ==> TriedBefore(s, o, p)
    ensures AllTriedBefore(s, os + ps)
  {
    var all := os + ps;
    forall i, j | 0 <= i < j < |all|
      ensures TriedBefore(s, all[i], all[j])
    {
      if i < |os| <= j {
        assert all[i] in os && all[j] in ps;
      } else if j < |os| {
        assert all[i] == os[i] && all[j] == os[j];
      } else {
        assert all[i] == ps[i - |os|] && all[j] == ps[j - |os|];
      }
    }
  }

  lemma {:induction false} OrdersOfComeFrom<T>(subsets: seq<seq<T>>, n: nat, o: seq<T>) returns (i: nat)
    requires n <= |subsets| && o in OrdersOf(subsets, n)
    ensures i < n && o in Permutations(subsets[i])
  {
    if o in Permutations(subsets[n - 1]) {
      i := n - 1;
    } else {
      i := OrdersOfComeFrom(subsets, n - 1, o);
    }
  }

  lemma {:induction false} OneSubsetInOrder<T>(s: seq<T>, k: nat, c: seq<T>)
    requires NoRepeats(s) && c in Combinations(s, k)
    ensures AllTriedBefore(s, Permutations(c))
  {
    hide Precedes;
    var ps := Permutations(c);
    PermutationsAscend(c);
    forall i, j | 0 <= i < j < |ps|
      ensures TriedBefore(s, ps[i], ps[j])
    {
      OrderOfCombination(s, k, c, ps[i]);
      OrderOfCombination(s, k, c, ps[j]);
    }
  }

  lemma {:induction false} SubsetsApart<T>(s: seq<T>, k: nat, i: nat, j: nat, o: seq<T>, p: seq<T>)
    requires NoRepeats(s) && i < j < |Combinations(s, k)|
    requires o in Permutations(Combinations(s, k)[i]) && p in Permutations(Combinations(s, k)[j])
    ensures TriedBefore(s, o, p)
  {
    hide Precedes;
    CombinationsAscend(s, k);
    OrderOfCombination(s, k, Combinations(s, k)[i], o);
    OrderOfCombination(s, k, Combinations(s, k)[j], p);
  }

  lemma {:induction false} SubsetsInOrder<T>(s: seq<T>, k: nat, n: nat)
    requires NoRepeats(s) && n <= |Combinations(s, k)|
    ensures AllTriedBefore(s, OrdersOf(Combinations(s, k), n))
    decreases n
  {
    hide TriedBefore, NoRepeats, Permutations, Combinations, AllTriedBefore;
    if n == 0 {
      NothingInOrder(s);
    } else {
      var cs := Combinations(s, k);
      SubsetsInOrder(s, k, n - 1);
      OneSubsetInOrder(s, k, cs[n - 1]);
      var os, ps := OrdersOf(cs, n - 1), Permutations(cs[n - 1]);
      forall o, p | o in os && p in ps
        ensures TriedBefore(s, o, p)
      {
        var i := OrdersOfComeFrom(cs, n - 1, o);
        SubsetsApart(s, k, i, n - 1, o, p);
      }
      AppendedAfter(s, os, ps);
    }
  }

  lemma NothingInOrder<T>(s: seq<T>)
    ensures AllTriedBefore(s, [])
  {}

  /** The whole list is in that order: of two pipelines the one that comes first is tried first, and only once. */
  lemma {:induction false} SearchedInOrder<T>(s: seq<T>, lo: nat, hi: nat)
    requires NoRepeats(s)
    ensures AllTriedBefore(s, OrdersOfSizes(s, lo, hi))
    decreases hi
  {
    if lo < hi {
      var k := hi - 1;
      var os, ps := OrdersOfSizes(s, lo, k), OrdersOf(Combinations(s, k), |Combinations(s, k)|);
      SearchedInOrder(s, lo, k);
      SubsetsInOrder(s, k, |Combinations(s, k)|);
      forall o, p | o in os && p in ps
        ensures TriedBefore(s, o, p)
      {
        SearchSpace(s, lo, k, o);
        OrderIsEnumerated(s, k, p);
      }
      AppendedAfter(s, os, ps);
    }
  }

  lemma {:induction false} NotBeforeItself<T>(s: seq<T>, a: seq<T>)
    requires NoRepeats(s)
    ensures !Precedes(s, a, a)
  {}

  /** No order comes before itself, so none is listed twice. */
  lemma {:induction false} TriedOnce<T>(s: seq<T>, lo: nat, hi: nat)
    requires NoRepeats(s)
    ensures NoRepeats(OrdersOfSizes(s, lo, hi))
  {
    var os := OrdersOfSizes(s, lo, hi);
    SearchedInOrder(s, lo, hi);
    forall i, j | 0 <= i < j < |os|
      ensures os[i] != os[j]
    {
      var o := os[i];
      ChosenMembers(s, o);
      NotBeforeItself(s, Chosen(s, o));
      NotBeforeItself(Chosen(s, o), o);
    }
  }
}
