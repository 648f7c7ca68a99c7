/**
 What a pipeline computes when nothing fails. A stage is an arbitrary deterministic
 function of its KV and its input that appends KV columns and produces an output; the
 generated tokens are then determined by the prompt.
 */
module Reference {
  import opened Types
  import opened ByteStrings
  import opened KvLayout

  type Token = int

  /** A stage's KV: one column per token position, append-only. */
  type Kv = seq<Bytes>

  datatype Model = Model(
    tokens: Bytes -> nat,                        // sequence length an activation carries
    columns: (StageKey, Kv, Bytes) -> Kv,        // KV columns a stage appends
    output: (StageKey, Kv, Bytes) -> Bytes,      // activation a stage produces
    sample: Bytes -> Token,                      // head and greedy argmax
    embedPrompt: string -> Bytes,
    embedToken: (Token, nat) -> Bytes)           // token and number of earlier tokens

  /** A model, the layer ranges it is cut into, and a prompt. */
  datatype Job = Job(model: Model, keys: seq<StageKey>, prompt: string)

  // ---------- one pass along a chain ----------

  /**
   The activation that reaches stage j when `blob` enters stage i and stage s starts from
   the KV bases[s].
   */
  ghost function FlowIn(m: Model, keys: seq<StageKey>, bases: seq<Kv>, i: nat, blob: Bytes, j: nat): Bytes
    requires i <= j <= |keys| == |bases|
    decreases j
  {
    if j == i then blob
    else m.output(keys[j - 1], bases[j - 1], FlowIn(m, keys, bases, i, blob, j - 1))
  }

  /** The KV stage j holds after that pass. */
  ghost function FlowKv(m: Model, keys: seq<StageKey>, bases: seq<Kv>, i: nat, blob: Bytes, j: nat): Kv
    requires i <= j < |keys| == |bases|
  {
    bases[j] + m.columns(keys[j], bases[j], FlowIn(m, keys, bases, i, blob, j))
  }

  /** Entering one stage later with what that stage receives makes no difference downstream. */
  lemma {:induction false} FlowStep(m: Model, keys: seq<StageKey>, bases: seq<Kv>, i: nat, blob: Bytes, j: nat)
    requires i < j <= |keys| == |bases|
    ensures FlowIn(m, keys, bases, i + 1, m.output(keys[i], bases[i], blob), j) == FlowIn(m, keys, bases, i, blob, j)
    decreases j
  {
    if j > i + 1 {
      FlowStep(m, keys, bases, i, blob, j - 1);
    } else {
      assert FlowIn(m, keys, bases, i, blob, i) == blob;
    }
  }

  // ---------- the fault-free run ----------

  /** The KV stage i holds before it runs position p. */
  ghost function Before(job: Job, p: nat, i: nat): Kv
    requires i < |job.keys|
    decreases p, i, 0
  {
    if p == 0 then [] else After(job, p - 1, i)
  }

  ghost function After(job: Job, p: nat, i: nat): Kv
    requires i < |job.keys|
    decreases p, i, 2
  {
    Before(job, p, i) + job.model.columns(job.keys[i], Before(job, p, i), In(job, p, i))
  }

  /** The activation that enters stage i at position p; for i = |keys| the final one. */
  ghost function In(job: Job, p: nat, i: nat): Bytes
    requires i <= |job.keys|
    decreases p, i, 1
  {
    if i == 0 then HeadIn(job, p)
    else job.model.output(job.keys[i - 1], Before(job, p, i - 1), In(job, p, i - 1))
  }

  ghost function HeadIn(job: Job, p: nat): Bytes
    decreases p, 0, 0
  {
    if p == 0 then job.model.embedPrompt(job.prompt)
    else job.model.embedToken(TokenAt(job, p - 1), PastLength(job) + p - 1)
  }

  /** The token position p yields: position 0 is the prefill. */
  ghost function TokenAt(job: Job, p: nat): Token
    decreases p, |job.keys|, 3
  {
    job.model.sample(In(job, p, |job.keys|))
  }

  function PastLength(job: Job): nat {
    job.model.tokens(job.model.embedPrompt(job.prompt))
  }

  /** A pass that starts from the fault-free KV and input is the fault-free pass. */
  lemma {:induction false} FlowIsReference(job: Job, bases: seq<Kv>, p: nat, i: nat, j: nat)
    requires i <= j <= |job.keys| == |bases|
    requires forall s :: i <= s < j ==> bases[s] == Before(job, p, s)
    ensures FlowIn(job.model, job.keys, bases, i, In(job, p, i), j) == In(job, p, j)
    decreases j
  {
    if i < j {
      FlowIsReference(job, bases, p, i, j - 1);
    }
  }

  // ---------- KV is append-only ----------

  lemma BeforeGrows(job: Job, p: nat, i: nat)
    requires i < |job.keys|
    ensures Before(job, p + 1, i) == After(job, p, i) && Before(job, p, i) <= After(job, p, i)
  {}

  lemma {:induction false} BeforeMonotone(job: Job, p: nat, q: nat, i: nat)
    requires i < |job.keys| && p <= q
    ensures Before(job, p, i) <= Before(job, q, i)
    decreases q - p
  {
    if p < q {
      BeforeMonotone(job, p, q - 1, i);
      BeforeGrows(job, q - 1, i);
    }
  }

  // ---------- shapes ----------

  /** A stage appends one column per token, sized by its layers, and keeps the token count. */
  ghost predicate RegularAt(m: Model, g: Geometry, key: StageKey, kv: Kv, blob: Bytes) {
    && |m.columns(key, kv, blob)| == m.tokens(blob) && Sized(m.columns(key, kv, blob), key, g)
    && m.tokens(m.output(key, kv, blob)) == m.tokens(blob)
  }

  ghost predicate Regular(m: Model, g: Geometry) {
    && (forall key, kv, blob {:trigger RegularAt(m, g, key, kv, blob)} :: RegularAt(m, g, key, kv, blob))
    && (forall token, n :: m.tokens(m.embedToken(token, n)) == 1)
  }

  ghost predicate Sized(kv: Kv, key: StageKey, g: Geometry) {
    forall s :: 0 <= s < |kv| ==> |kv[s]| == g.SlotBytes(key)
  }

  /** KV slots a stage holds before position p: the whole prompt after prefill, then one each. */
  function SlotsBefore(job: Job, p: nat): nat {
    if p == 0 then 0 else PastLength(job) + p - 1
  }

  lemma {:induction false} TokensIn(job: Job, g: Geometry, p: nat, i: nat)
    requires Regular(job.model, g) && i <= |job.keys|
    ensures job.model.tokens(In(job, p, i)) == if p == 0 then PastLength(job) else 1
    decreases i
  {
    if i > 0 {
      TokensIn(job, g, p, i - 1);
      assert RegularAt(job.model, g, job.keys[i - 1], Before(job, p, i - 1), In(job, p, i - 1));
    }
  }

  lemma {:induction false} BeforeShape(job: Job, g: Geometry, p: nat, i: nat)
    requires Regular(job.model, g) && i < |job.keys|
    ensures |Before(job, p, i)| == SlotsBefore(job, p) && Sized(Before(job, p, i), job.keys[i], g)
    decreases p
  {
    if p > 0 {
      BeforeShape(job, g, p - 1, i);
      TokensIn(job, g, p - 1, i);
      var kv, added := Before(job, p - 1, i), job.model.columns(job.keys[i], Before(job, p - 1, i), In(job, p - 1, i));
      assert Before(job, p, i) == kv + added;
      assert RegularAt(job.model, g, job.keys[i], kv, In(job, p - 1, i));
    }
  }
}
