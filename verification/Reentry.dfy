/**
 Re-entering a chain in its middle: the state this leaves is the fault-free one exactly when
 every stage that was not rebuilt held what it should.
 */
module Reentry {
  import opened Reference
  import opened Workforce
  import opened Chains
  import opened Protocol

  /** A decode call that enters stage e, rebuilt, and gets through to the end. */
  ghost predicate Through(t: Task, w: World, hs: seq<Held>, e: nat, p: nat) {
    && t.Valid() && WorldValid(w) && DistinctHolds(hs) && KeysOf(hs) == t.job.keys && e < |hs| && p > 0
    && HoldsBefore(w, t, hs[e], p, e) && FirstDown(w, hs, e, p) == |hs|
  }

  ghost function Outcome(t: Task, w: World, pushKv: bool, hs: seq<Held>, e: nat, p: nat): (World, Reply)
    requires t.Valid() && WorldValid(w) && e < |hs| == t.Stages()
  {
    ChainCall(w, t.job.model, pushKv, hs[e..], StepCall(t, In(t.job, p, e), p))
  }

  /** All other stages held what position p needs of them when the chain is entered at stage e. */
  ghost predicate OthersHold(t: Task, w: World, hs: seq<Held>, e: nat, p: nat) {
    |hs| == t.Stages() && forall i :: 0 <= i < |hs| && i != e ==> HoldsBefore(w, t, hs[i], Done(p, e, i), i)
  }

  /** One token enters every stage of a decode pass, whatever KV the stages started from. */
  lemma {:induction false} OneTokenArrives(t: Task, q: Pass, p: nat, j: nat)
    requires t.Valid() && PassValid(q) && q.model == t.job.model && KeysOf(q.hs) == t.job.keys && p > 0
    requires q.i <= j <= |q.hs| && q.call.blob == In(t.job, p, q.i)
    ensures t.job.model.tokens(Arriving(q, j)) == 1
    decreases j
  {
    if j == q.i {
      TokensIn(t.job, t.geometry, p, q.i);
    } else {
      OneTokenArrives(t, q, p, j - 1);
      assert RegularAt(t.job.model, t.geometry, t.job.keys[j - 1], q.bases[j - 1], Arriving(q, j - 1));
    }
  }

  lemma PrefixesEqual(a: Kv, b: Kv, c: Kv, d: Kv)
    requires a + c == b + d && |c| == |d|
    ensures a == b
  {
    assert |a| == |b|;
    assert a == (a + c)[..|a|] && b == (b + d)[..|b|];
  }

  /** A stage that ran once on the wrong KV does not end up with the right one. */
  lemma WrongStaysWrong(t: Task, w: World, pushKv: bool, hs: seq<Held>, e: nat, p: nat, j: nat)
    requires Through(t, w, hs, e, p) && e <= j < |hs|
    ensures HoldsBefore(Outcome(t, w, pushKv, hs, e, p).0, t, hs[j], p + 1, j) ==> HoldsBefore(w, t, hs[j], p, j)
  {
    var q := PassOf(t, w, pushKv, hs, e, In(t.job, p, e), p);
    ChainOutcome(q, w);
    OneTokenArrives(t, q, p, j);
    TokensIn(t.job, t.geometry, p, j);
    var m, key, base, true_ := t.job.model, t.job.keys[j], q.bases[j], Before(t.job, p, j);
    assert RegularAt(m, t.geometry, key, base, Arriving(q, j)) && RegularAt(m, t.geometry, key, true_, In(t.job, p, j));
    assert GrownKv(q, j) == base + m.columns(key, base, Arriving(q, j));
    assert Before(t.job, p + 1, j) == true_ + m.columns(key, true_, In(t.job, p, j));
    if HoldsBefore(Outcome(t, w, pushKv, hs, e, p).0, t, hs[j], p + 1, j) {
      PrefixesEqual(base, true_, m.columns(key, base, Arriving(q, j)), m.columns(key, true_, In(t.job, p, j)));
    }
  }

  /**
   Re-entering at a rebuilt stage restores the fault-free state exactly when every other
   stage held what it should: the earlier ones done with p, the later ones not.
   */
  lemma ReentryExact(t: Task, w: World, pushKv: bool, hs: seq<Held>, e: nat, p: nat)
    requires Through(t, w, hs, e, p)
    ensures KvIs(Outcome(t, w, pushKv, hs, e, p).0, t, hs, p, t.Stages()) <==> OthersHold(t, w, hs, e, p)
  {
    var u := Outcome(t, w, pushKv, hs, e, p).0;
    ReentryKeepsEarlier(t, w, pushKv, hs, e, p);
    if KvIs(u, t, hs, p, t.Stages()) {
      forall i | 0 <= i < |hs| && i != e
        ensures HoldsBefore(w, t, hs[i], Done(p, e, i), i)
      {
        assert HoldsBefore(u, t, hs[i], Done(p, t.Stages(), i), i);
        if i > e {
          WrongStaysWrong(t, w, pushKv, hs, e, p, i);
        }
      }
    }
    if OthersHold(t, w, hs, e, p) {
      assert forall j :: e < j < |hs| ==> HoldsBefore(w, t, hs[j], Done(p, e, j), j);
      CallAdvances(t, w, pushKv, hs, e, In(t.job, p, e), p);
      forall i | 0 <= i < |hs|
        ensures HoldsBefore(u, t, hs[i], Done(p, t.Stages(), i), i)
      {
        assert i < e ==> HoldsBefore(w, t, hs[i], Done(p, e, i), i);
      }
    }
  }

  lemma ReentryKeepsEarlier(t: Task, w: World, pushKv: bool, hs: seq<Held>, e: nat, p: nat)
    requires Through(t, w, hs, e, p)
    ensures forall i :: 0 <= i < e ==>
      KvAt(Outcome(t, w, pushKv, hs, e, p).0, hs[i], t.request) == KvAt(w, hs[i], t.request)
  {
    var q := PassOf(t, w, pushKv, hs, e, In(t.job, p, e), p);
    ChainOutcome(q, w);
  }

  /** A stage whose KV is gone is not what any position after the prefill needs. */
  lemma LostKvIsWrong(t: Task, w: World, h: Held, p: nat, i: nat)
    requires t.Valid() && i < t.Stages() && KvAt(w, h, t.request) == [] && SlotsBefore(t.job, p) > 0
    ensures !HoldsBefore(w, t, h, p, i)
  {
    BeforeShape(t.job, t.geometry, p, i);
  }

}
