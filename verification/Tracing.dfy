/**
 A model whose activations tell which stage produced them, and how many KV slots the stages
 they passed held in all: an input on which wrong answers show.
 */
module Tracing {
  import opened Types
  import opened ByteStrings
  import opened KvLayout
  import opened Reference
  import opened Protocol

  /** Two bytes a token. */
  function TraceTokens(b: Bytes): nat { |b| / 2 }

  function Blank(n: nat): Bytes {
    seq(n, _ => 0)
  }

  function TraceColumns(key: StageKey, kv: Kv, b: Bytes): Kv {
    seq(TraceTokens(b), _ => Blank(Geometry(1, 1).SlotBytes(key)))
  }

  function ByteOf(n: nat): Byte {
    n % 256
  }

  /** Each token's first byte names the stage, its second one adds the stage's KV slots. */
  function TraceByte(key: StageKey, kv: Kv, b: Bytes, i: nat): Byte
    requires i < |b|
  {
    if i % 2 == 0 then ByteOf(key.end) else ByteOf(|kv| + b[i])
  }

  function TraceOutput(key: StageKey, kv: Kv, b: Bytes): (out: Bytes)
    ensures TraceTokens(out) == TraceTokens(b)
    ensures TraceTokens(b) == 1 ==> out == [ByteOf(key.end), ByteOf(|kv| + b[1])]
  {
    seq(2 * TraceTokens(b), (i: nat) requires i < |b| => TraceByte(key, kv, b, i))
  }

  function TraceSample(b: Bytes): Token {
    if |b| < 2 then 0 else (b[0] as int) * 256 + (b[1] as int)
  }

  function TracePrompt(prompt: string): Bytes { [0, 0] }

  function TraceEmbed(token: Token, n: nat): Bytes { [0, 0] }

  function TracingModel(): Model {
    Model(TraceTokens, TraceColumns, TraceOutput, TraceSample, TracePrompt, TraceEmbed)
  }

  lemma TracingRegular()
    ensures Regular(TracingModel(), Geometry(1, 1))
  {
    forall key, kv, b
      ensures RegularAt(TracingModel(), Geometry(1, 1), key, kv, b)
    {}
  }

  /** In a fault-free run the second byte counts the slots of all stages passed so far. */
  lemma {:induction false} TracedIn(t: Task, p: nat, i: nat)
    requires t.Valid() && t.job.model == TracingModel() && i <= t.Stages()
    ensures PastLength(t.job) == 1
    ensures In(t.job, p, i) ==
      [if i == 0 then 0 else ByteOf(t.job.keys[i - 1].end), ByteOf(i * SlotsBefore(t.job, p))]
  {
    hide RegularAt, ByteOf, Regular;
    if i == 0 {
      BytesAdd(0, 0);
      assert In(t.job, p, 0) == HeadIn(t.job, p) == [0, 0];
    } else {
      var j, n := i - 1, SlotsBefore(t.job, p);
      TracedIn(t, p, j);
      BeforeShape(t.job, t.geometry, p, j);
      assert In(t.job, p, i) == TraceOutput(t.job.keys[j], Before(t.job, p, j), In(t.job, p, j));
      SlotsAdd(j, n);
    }
  }

  lemma SlotsAdd(j: nat, n: nat)
    ensures ByteOf(n + ByteOf(j * n)) == ByteOf((j + 1) * n)
  {
    assert n + j * n == (j + 1) * n;
    BytesAdd(n, j * n);
  }

  lemma BytesAdd(a: nat, b: nat)
    ensures ByteOf(0) == 0 && ByteOf(a + ByteOf(b)) == ByteOf(a + b)
  {}

  /** The fault-free run's last activation names the last stage. */
  lemma {:induction false} TracedLast(t: Task, p: nat)
    requires t.Valid() && t.job.model == TracingModel()
    ensures t.Stages() > 0 && PastLength(t.job) == 1 && |In(t.job, p, t.Stages())| == 2
    ensures In(t.job, p, t.Stages())[0] == ByteOf(t.job.keys[t.Stages() - 1].end)
  {
    assert Follows(t.placement, 0);
    TracedIn(t, p, t.Stages());
  }

  /** An answer that was produced by another stage, or from another number of slots, is wrong. */
  lemma {:induction false} TracedWrongly(t: Task, p: nat, last: Bytes)
    requires t.Valid() && t.job.model == TracingModel() && |last| == 2 && last != In(t.job, p, t.Stages())
    ensures TraceSample(last) != TokenAt(t.job, p)
  {
    TracedLast(t, p);
    assert TokenAt(t.job, p) == TraceSample(In(t.job, p, t.Stages()));
  }
}
