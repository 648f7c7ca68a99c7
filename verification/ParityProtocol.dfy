/**
 Why the parity gates are sufficient: a complete slot has been contributed to by every
 non-head stage, so it is a slot the lost stages held, and what was folded into it is the
 fault-free KV of all of them.
 */
module ParityProtocol {
  import opened FiniteSets
  import opened Types
  import opened KvLayout
  import opened Reference
  import opened ParityFold
  import opened KvReconstruction
  import opened Protocol

  // ---------- counting contributors ----------

  ghost function NonHeadKeys(t: Task, n: nat): (ks: set<StageKey>)
    requires t.Valid() && 1 <= n <= t.Stages()
    ensures forall k :: k in ks <==> 0 < StageOf(t.job.keys, k) < n
    ensures |ks| == n - 1
  {
    NonHeadStep(t, n);
    assert forall k :: StageOf(t.job.keys, k) == n - 1 <==> k == t.job.keys[n - 1];
    if n == 1 then {} else NonHeadKeys(t, n - 1) + {t.job.keys[n - 1]}
  }

  lemma NonHeadStep(t: Task, n: nat)
    requires t.Valid() && 1 <= n <= t.Stages()
    ensures StageOf(t.job.keys, t.job.keys[n - 1]) == n - 1
  {
    StageOfKey(t, n - 1);
  }

  ghost function TrueContribution(t: Task, i: nat, slot: nat): Contribution
    requires 0 < i < t.Stages()
  {
    Contribution(t.job.keys[i], i - 1, TrueColumn(t.job, i, slot))
  }

  /** A slot with as many contributors as there are non-head stages holds exactly their true columns. */
  lemma CompleteSlot(t: Task, p: nat, v: nat, slot: nat, log: seq<Contribution>)
    requires t.Valid() && LogSound(t, p, v, slot, log) && |Keys(log)| == t.Stages() - 1
    ensures forall i :: 0 < i < t.Stages() ==>
      TrueContribution(t, i, slot) in log && slot < SlotsBefore(t.job, Done(p, v, i))
    ensures forall c :: c in log ==>
      var i := StageOf(t.job.keys, c.key); 0 < i < t.Stages() && c == TrueContribution(t, i, slot)
  {
    var ks := NonHeadKeys(t, t.Stages());
    forall k | k in Keys(log)
      ensures k in ks
    {
      var c :| c in log && c.key == k;
      assert ContributionSound(t, p, v, slot, c);
    }
    SameSizeSubset(Keys(log), ks);
    forall i | 0 < i < t.Stages()
      ensures TrueContribution(t, i, slot) in log && slot < SlotsBefore(t.job, Done(p, v, i))
    {
      StageOfKey(t, i);
      assert t.job.keys[i] in Keys(log);
      var c :| c in log && c.key == t.job.keys[i];
      assert ContributionSound(t, p, v, slot, c);
    }
    forall c | c in log
      ensures var i := StageOf(t.job.keys, c.key); 0 < i < t.Stages() && c == TrueContribution(t, i, slot)
    {
      assert ContributionSound(t, p, v, slot, c);
    }
  }

  // ---------- what the survivors' bytes say ----------

  lemma Quotient(a: nat, b: nat)
    requires b > 0
    ensures (b * a) % b == 0 && (b * a) / b == a
  {
    var q, r := b * a / b, b * a % b;
    assert b * a == b * q + r;
    Vanishes(b, a - q);
  }

  lemma Vanishes(b: int, d: int)
    requires b > 0 && 0 <= b * d < b
    ensures d == 0
  {
    if d > 0 {
      AtLeast(b, d);
    } else if d < 0 {
      AtLeast(b, -d);
    }
  }

  lemma AtLeast(b: int, c: int)
    requires b > 0 && c > 0
    ensures b * c >= b
  {}

  lemma ProductsRegroup(a: nat, b: nat, c: nat)
    ensures a * (b * c) == (a * c) * b
  {}

  /** Exported bytes tell how many columns they hold, and read back as those columns. */
  lemma ExportedBytes(t: Task, i: nat, f: Fetched, kv: Kv)
    requires t.Valid() && i < t.Stages() && f.key == t.job.keys[i] && Sized(kv, f.key, t.geometry)
    requires f.buf == SlotMajorToLayerMajor(kv, t.geometry.Lanes(f.key), t.geometry.row)
    ensures WholeSlots(f, t.geometry) && SlotCount(f, t.geometry) == |kv| && Rows(f, t.geometry) == kv
  {
    var g := t.geometry;
    StageOfKey(t, i);
    TransposesInvert(kv, g.Lanes(f.key), g.row);
    ProductsRegroup(g.Lanes(f.key), |kv|, g.row);
    Quotient(|kv|, g.SlotBytes(f.key));
  }

  /** A survivor's bytes: its slot count and its columns, read back exactly. */
  lemma {:induction false} SurvivorBytes(t: Task, q: nat, i: nat, f: Fetched)
    requires t.Valid() && i < t.Stages() && f.key == t.job.keys[i]
    requires Sized(Before(t.job, q, i), f.key, t.geometry)
    requires f.buf == SlotMajorToLayerMajor(Before(t.job, q, i), t.geometry.Lanes(f.key), t.geometry.row)
    ensures WholeSlots(f, t.geometry) && SlotCount(f, t.geometry) == SlotsBefore(t.job, q)
    ensures Rows(f, t.geometry) == Before(t.job, q, i)
  {
    BeforeShape(t.job, t.geometry, q, i);
    ExportedBytes(t, i, f, Before(t.job, q, i));
  }

  /** The survivors in stage order, each holding the KV of the positions it has done. */
  ghost predicate Survivors(t: Task, p: nat, v: nat, lost: set<nat>, surv: seq<Fetched>, idx: seq<nat>) {
    && t.Valid() && |idx| == |surv|
    && (forall j :: 0 <= j < |surv| ==> SurvivorAt(t, p, v, surv[j], idx[j]) && idx[j] !in lost)
    && (forall j, k :: 0 <= j < k < |idx| ==> idx[j] < idx[k])
    && (forall i :: 0 < i < t.Stages() && i !in lost ==> i in idx)
  }

  ghost predicate SurvivorAt(t: Task, p: nat, v: nat, f: Fetched, i: nat) {
    && 0 < i < t.Stages() && f.key == t.job.keys[i]
    && Sized(Before(t.job, Done(p, v, i), i), f.key, t.geometry)
    && f.buf == SlotMajorToLayerMajor(Before(t.job, Done(p, v, i), i), t.geometry.Lanes(f.key), t.geometry.row)
  }

  lemma {:induction false} SurvivorShape(t: Task, p: nat, v: nat, f: Fetched, i: nat)
    requires t.Valid() && SurvivorAt(t, p, v, f, i)
    ensures WholeSlots(f, t.geometry) && Rows(f, t.geometry) == Before(t.job, Done(p, v, i), i)
    ensures SlotCount(f, t.geometry) == SlotsBefore(t.job, Done(p, v, i))
  {
    SurvivorBytes(t, Done(p, v, i), i, f);
  }

  /** The lost stage's columns as they were before position p. */
  ghost function LostStage(t: Task, p: nat, i: nat): Known
    requires t.Valid() && i < t.Stages()
  {
    Known(t.job.keys[i], Before(t.job, p, i))
  }

  lemma LostShaped(t: Task, p: nat, i: nat)
    requires t.Valid() && i < t.Stages()
    ensures Shaped(LostStage(t, p, i), SlotsBefore(t.job, p), t.geometry)
  {
    BeforeShape(t.job, t.geometry, p, i);
  }

  /** Parity coefficients rank the non-head stages from 0. */
  ghost predicate Ranked(t: Task, coeff: map<StageKey, nat>) {
    forall i :: 0 < i < t.Stages() ==> t.job.keys[i] in coeff && coeff[t.job.keys[i]] == i - 1
  }

  /** What a stage of the group contributed to a slot it holds is its true contribution. */
  lemma {:induction false} KnownContribution(t: Task, q: nat, i: nat, coeff: map<StageKey, nat>, slot: nat, k: Known)
    requires t.Valid() && 0 < i < t.Stages() && Ranked(t, coeff) && slot < SlotsBefore(t.job, q)
    requires k == Known(t.job.keys[i], Before(t.job, q, i))
    ensures slot < |k.rows| && Contribution(k.key, RankOf(coeff, k.key), k.rows[slot]) == TrueContribution(t, i, slot)
  {
    TrueColumnIs(t, q, i, slot);
  }

  ghost predicate Order(t: Task, order: seq<nat>) {
    && (forall j :: 0 <= j < |order| ==> 0 < order[j] < t.Stages())
    && (forall j, k :: 0 <= j < k < |order| ==> order[j] != order[k])
    && (forall i :: 0 < i < t.Stages() ==> i in order)
  }

  /** A log of all true contributions is explained by them in any order. */
  lemma ExplainedBy(t: Task, slot: nat, log: seq<Contribution>, cs: seq<Contribution>, order: seq<nat>)
    requires t.Valid() && Order(t, order) && DistinctKeys(log) && |cs| == |order|
    requires forall j :: 0 <= j < |order| ==> cs[j] == TrueContribution(t, order[j], slot)
    requires forall i :: 0 < i < t.Stages() ==> TrueContribution(t, i, slot) in log
    requires forall c :: c in log ==>
      var i := StageOf(t.job.keys, c.key); 0 < i < t.Stages() && c == TrueContribution(t, i, slot)
    ensures Explains(log, cs)
  {
    forall j, k | 0 <= j < k < |cs|
      ensures cs[j].key != cs[k].key
    {
      StageOfKey(t, order[j]);
      StageOfKey(t, order[k]);
    }
    forall c | c in log
      ensures c in cs
    {
      var i := StageOf(t.job.keys, c.key);
      assert i in order;
      var j: nat :| j < |order| && order[j] == i;
      assert cs[j] == c;
    }
  }

  /** The stages of the group in any order, with the KV each holds at q(i) positions. */
  ghost predicate KnownAt(t: Task, k: Known, i: nat, q: nat, slot: nat)
  {
    0 < i < t.Stages() && slot < SlotsBefore(t.job, q) && k == Known(t.job.keys[i], Before(t.job, q, i))
  }

  lemma ContributedAre(t: Task, ks: seq<Known>, order: seq<nat>, qs: seq<nat>, coeff: map<StageKey, nat>, slot: nat)
    requires t.Valid() && Ranked(t, coeff) && |ks| == |order| == |qs|
    requires forall j :: 0 <= j < |ks| ==> KnownAt(t, ks[j], order[j], qs[j], slot)
    ensures Reach(ks, slot)
    ensures forall j :: 0 <= j < |ks| ==>
      0 < order[j] < t.Stages() && Contributed(ks, coeff, slot)[j] == TrueContribution(t, order[j], slot)
  {
    forall j | 0 <= j < |ks|
      ensures 0 < order[j] < t.Stages()
      ensures slot < |ks[j].rows|
      ensures Contribution(ks[j].key, RankOf(coeff, ks[j].key), ks[j].rows[slot]) == TrueContribution(t, order[j], slot)
    {
      KnownContribution(t, qs[j], order[j], coeff, slot, ks[j]);
    }
  }

  // ---------- the gates ----------

  lemma SlotsGrow(job: Job, p: nat, q: nat)
    requires p <= q
    ensures SlotsBefore(job, p) <= SlotsBefore(job, q)
  {}

  /** The smallest of the survivors' slot counts. */
  ghost predicate LeastCount(surv: seq<Fetched>, g: Geometry, n: nat) {
    && (forall j :: 0 <= j < |surv| ==> WholeSlots(surv[j], g) && n <= SlotCount(surv[j], g))
    && (exists j :: 0 <= j < |surv| && WholeSlots(surv[j], g) && n == SlotCount(surv[j], g))
  }

  /** The least count is what the lost stages held: were it one more, its last slot would be incomplete. */
  lemma SharedSlotsAreLost(t: Task, p: nat, v: nat, lost: set<nat>, surv: seq<Fetched>, idx: seq<nat>, n: nat,
      log: seq<Contribution>)
    requires Survivors(t, p, v, lost, surv, idx) && 0 < v < t.Stages() && LeastCount(surv, t.geometry, n) && n > 0
    requires LogSound(t, p, v, n - 1, log) && |Keys(log)| == t.Stages() - 1
    ensures n == SlotsBefore(t.job, p)
  {
    SlotIsHeld(t, p, v, n - 1, log, v);
    var j :| 0 <= j < |surv| && WholeSlots(surv[j], t.geometry) && n == SlotCount(surv[j], t.geometry);
    LeastAtLeast(t, p, v, surv[j], idx[j]);
  }

  lemma LeastAtLeast(t: Task, p: nat, v: nat, f: Fetched, i: nat)
    requires t.Valid() && SurvivorAt(t, p, v, f, i)
    ensures WholeSlots(f, t.geometry) && SlotCount(f, t.geometry) >= SlotsBefore(t.job, p)
  {
    SurvivorShape(t, p, v, f, i);
    SlotsGrow(t.job, p, Done(p, v, i));
  }

  lemma SlotIsHeld(t: Task, p: nat, v: nat, slot: nat, log: seq<Contribution>, i: nat)
    requires t.Valid() && LogSound(t, p, v, slot, log) && |Keys(log)| == t.Stages() - 1 && 0 < i < t.Stages()
    ensures slot < SlotsBefore(t.job, Done(p, v, i))
  {
    CompleteSlot(t, p, v, slot, log);
    assert slot < SlotsBefore(t.job, Done(p, v, i)) by {
      assert TrueContribution(t, i, slot) in log;
    }
  }

  ghost function LostStages(t: Task, p: nat, lost: seq<nat>): (ks: seq<Known>)
    requires t.Valid() && forall j :: 0 <= j < |lost| ==> lost[j] < t.Stages()
    ensures |ks| == |lost| && forall j :: 0 <= j < |ks| ==> ks[j] == LostStage(t, p, lost[j])
  {
    seq(|lost|, j requires 0 <= j < |lost| => LostStage(t, p, lost[j]))
  }

  ghost function DoneOf(p: nat, v: nat, idx: seq<nat>): (qs: seq<nat>)
    ensures |qs| == |idx| && forall j :: 0 <= j < |qs| ==> qs[j] == Done(p, v, idx[j])
  {
    seq(|idx|, j requires 0 <= j < |idx| => Done(p, v, idx[j]))
  }

  ghost function SetOf(lost: seq<nat>): set<nat> {
    set i | i in lost
  }

  ghost predicate LostOrder(t: Task, lost: seq<nat>) {
    && (forall j :: 0 <= j < |lost| ==> 0 < lost[j] < t.Stages())
    && (forall j, k :: 0 <= j < k < |lost| ==> lost[j] != lost[k])
  }

  lemma OrderOf(t: Task, p: nat, v: nat, lost: seq<nat>, surv: seq<Fetched>, idx: seq<nat>)
    requires LostOrder(t, lost) && Survivors(t, p, v, SetOf(lost), surv, idx)
    ensures Order(t, lost + idx)
  {
    var order := lost + idx;
    forall j | 0 <= j < |order|
      ensures 0 < order[j] < t.Stages()
    {
      assert j >= |lost| ==> SurvivorAt(t, p, v, surv[j - |lost|], idx[j - |lost|]);
    }
    forall j, k | 0 <= j < k < |order|
      ensures order[j] != order[k]
    {
      assert j < |lost| ==> order[j] in lost;
    }
  }

  lemma SurvivorKnownAt(t: Task, p: nat, v: nat, f: Fetched, i: nat, slot: nat)
    requires t.Valid() && SurvivorAt(t, p, v, f, i) && slot < SlotsBefore(t.job, p)
    ensures WholeSlots(f, t.geometry) && KnownAt(t, Known(f.key, Rows(f, t.geometry)), i, Done(p, v, i), slot)
  {
    SurvivorShape(t, p, v, f, i);
    SlotsGrow(t.job, p, Done(p, v, i));
  }

  lemma LostContribute(t: Task, p: nat, lost: seq<nat>, coeff: map<StageKey, nat>, slot: nat)
    requires t.Valid() && LostOrder(t, lost) && Ranked(t, coeff) && slot < SlotsBefore(t.job, p)
    ensures Reach(LostStages(t, p, lost), slot)
    ensures forall j :: 0 <= j < |lost| ==>
      Contributed(LostStages(t, p, lost), coeff, slot)[j] == TrueContribution(t, lost[j], slot)
  {
    ContributedAre(t, LostStages(t, p, lost), lost, seq(|lost|, _ => p), coeff, slot);
  }

  lemma SurvivorsContribute(t: Task, p: nat, v: nat, lost: set<nat>, surv: seq<Fetched>, idx: seq<nat>,
      coeff: map<StageKey, nat>, slot: nat)
    requires Survivors(t, p, v, lost, surv, idx) && Ranked(t, coeff) && slot < SlotsBefore(t.job, p)
    requires forall j :: 0 <= j < |surv| ==> WholeSlots(surv[j], t.geometry)
    ensures Reach(KnownOf(surv, t.geometry), slot)
    ensures forall j :: 0 <= j < |surv| ==>
      0 < idx[j] < t.Stages() &&
      Contributed(KnownOf(surv, t.geometry), coeff, slot)[j] == TrueContribution(t, idx[j], slot)
  {
    var ks := KnownOf(surv, t.geometry);
    forall j | 0 <= j < |ks|
      ensures KnownAt(t, ks[j], idx[j], DoneOf(p, v, idx)[j], slot)
    {
      SurvivorKnownAt(t, p, v, surv[j], idx[j], slot);
    }
    ContributedAre(t, ks, idx, DoneOf(p, v, idx), coeff, slot);
  }

  lemma JoinedContributions(t: Task, a: seq<Contribution>, b: seq<Contribution>, lost: seq<nat>, idx: seq<nat>,
      slot: nat,
      log: seq<Contribution>)
    requires t.Valid() && Order(t, lost + idx) && DistinctKeys(log) && |a| == |lost| && |b| == |idx|
    requires forall j :: 0 <= j < |lost| ==> 0 < lost[j] < t.Stages() && a[j] == TrueContribution(t, lost[j], slot)
    requires forall j :: 0 <= j < |idx| ==> 0 < idx[j] < t.Stages() && b[j] == TrueContribution(t, idx[j], slot)
    requires forall i :: 0 < i < t.Stages() ==> TrueContribution(t, i, slot) in log
    requires forall c :: c in log ==>
      var i := StageOf(t.job.keys, c.key); 0 < i < t.Stages() && c == TrueContribution(t, i, slot)
    ensures Explains(log, a + b)
  {
    var cs, order := a + b, lost + idx;
    forall j | 0 <= j < |order|
      ensures 0 < order[j] < t.Stages() && cs[j] == TrueContribution(t, order[j], slot)
    {
      if j < |lost| {
        assert cs[j] == a[j] && order[j] == lost[j];
      } else {
        assert cs[j] == b[j - |lost|] && order[j] == idx[j - |lost|];
      }
    }
    ExplainedBy(t, slot, log, cs, order);
  }

  /** What was folded into a complete slot is explained by the lost and the surviving stages. */
  lemma SlotExplained(t: Task, p: nat, v: nat, lost: seq<nat>, surv: seq<Fetched>, idx: seq<nat>,
      coeff: map<StageKey, nat>, slot: nat, log: seq<Contribution>)
    requires Survivors(t, p, v, SetOf(lost), surv, idx) && LostOrder(t, lost) && Ranked(t, coeff)
    requires slot < SlotsBefore(t.job, p) && DistinctKeys(log)
    requires LogSound(t, p, v, slot, log) && |Keys(log)| == t.Stages() - 1
    requires forall j :: 0 <= j < |surv| ==> WholeSlots(surv[j], t.geometry)
    ensures Reach(LostStages(t, p, lost), slot) && Reach(KnownOf(surv, t.geometry), slot)
    ensures Explains(log,
      Contributed(LostStages(t, p, lost), coeff, slot) + Contributed(KnownOf(surv, t.geometry), coeff, slot))
  {
    var ls, ks := LostStages(t, p, lost), KnownOf(surv, t.geometry);
    CompleteSlot(t, p, v, slot, log);
    LostContribute(t, p, lost, coeff, slot);
    SurvivorsContribute(t, p, v, SetOf(lost), surv, idx, coeff, slot);
    OrderOf(t, p, v, lost, surv, idx);
    JoinedContributions(t, Contributed(ls, coeff, slot), Contributed(ks, coeff, slot), lost, idx, slot, log);
  }
}
