/** The cross-stage parity cache: one P blob, and with k = 2 one Q blob, per request and slot. */
module KvParity {
  import opened Wrappers
  import opened Types
  import opened ByteStrings
  import opened FieldTables
  import opened ParityFold
  import opened Lru

  datatype Entry = Entry(parity: Bytes, qParity: Option<Bytes>, contributors: set<StageKey>)

  type Slots = map<int, Entry>

  type Logs = map<int, seq<Contribution>>

  ghost function SetLog(m: Logs, p: int, cs: seq<Contribution>): Logs { m[p := cs] }

  function SetSlot(m: Slots, p: int, e: Entry): Slots { m[p := e] }

  ghost function EntryBytes(e: Entry): nat {
    |e.parity| + if e.qParity.Some? then |e.qParity.value| else 0
  }

  ghost function RequestBytes(m: Slots): nat { Total(m, EntryBytes) }

  /** The entry holds exactly these contributions, each once. */
  ghost predicate Holds(e: Entry, cs: seq<Contribution>, k: nat) {
    && DistinctKeys(cs) && e.contributors == Keys(cs)
    && IsFold(e.parity, cs, P)
    && (k == 2 <==> e.qParity.Some?)
    && (e.qParity.Some? ==> IsFold(e.qParity.value, cs, Q))
  }

  ghost predicate SlotsHold(m: Slots, logs: Logs, k: nat) {
    && m.Keys == logs.Keys
    && forall p {:trigger Holds(m[p], logs[p], k)} :: p in m ==> Holds(m[p], logs[p], k)
  }

  lemma SlotsHoldSet(m: Slots, logs: Logs, k: nat, p: int, e: Entry, cs: seq<Contribution>)
    requires SlotsHold(m, logs, k) && Holds(e, cs, k)
    ensures SlotsHold(SetSlot(m, p, e), SetLog(logs, p, cs), k)
  {
    forall q | q in m && q != p
      ensures Holds(SetSlot(m, p, e)[q], SetLog(logs, p, cs)[q], k)
    {
      assert Holds(m[q], logs[q], k);
    }
  }

  function Zeros(n: nat): (z: Bytes)
    ensures |z| == n && forall i :: 0 <= i < n ==> z[i] == 0
  {
    seq(n, _ => 0)
  }

  /** Zero-padded to at least n bytes. */
  function Grown(b: Bytes, n: nat): (g: Bytes)
    ensures |g| == if n > |b| then n else |b|
    ensures forall i :: 0 <= i < |g| ==> g[i] == Pad(b, i)
  {
    if n > |b| then b + Zeros(n - |b|) else b
  }

  /** acc[:len(col)] ^= col */
  function XorPrefix(acc: Bytes, col: Bytes): (r: Bytes)
    requires |col| <= |acc|
    ensures |r| == |acc|
    ensures forall i :: 0 <= i < |acc| ==> r[i] == Xor(acc[i], Pad(col, i))
  {
    XorPadUnit(acc);
    seq(|acc|, i requires 0 <= i < |acc| => if i < |col| then Xor(acc[i], col[i]) else acc[i])
  }

  lemma XorPadUnit(acc: Bytes)
    ensures forall i :: 0 <= i < |acc| ==> Xor(acc[i], 0) == acc[i]
  {
    forall i | 0 <= i < |acc|
      ensures Xor(acc[i], 0) == acc[i]
    {
      XorUnit(acc[i]);
    }
  }

  /** Growing and folding in one more column keeps a blob the fold of its contributions. */
  lemma FoldIn(bytes: Bytes, cs: seq<Contribution>, c: Contribution, blob: Blob, scaled: Bytes)
    requires IsFold(bytes, cs, blob) && |scaled| == |c.column|
    requires forall i :: 0 <= i < |scaled| ==> scaled[i] == Term(c, blob, i)
    ensures IsFold(XorPrefix(Grown(bytes, |scaled|), scaled), cs + [c], blob)
  {
    var r := XorPrefix(Grown(bytes, |scaled|), scaled);
    assert (cs + [c])[..|cs|] == cs;
    forall i | 0 <= i < |r|
      ensures r[i] == FoldAt(cs + [c], blob, i)
    {
      if i >= |bytes| {
        FoldBeyond(cs, blob, i);
      }
      if i >= |scaled| {
        TermBeyond(c, blob, i);
      }
    }
  }

  lemma KeysAppend(cs: seq<Contribution>, c: Contribution)
    requires DistinctKeys(cs) && c.key !in Keys(cs)
    ensures DistinctKeys(cs + [c]) && Keys(cs + [c]) == Keys(cs) + {c.key}
  {
    forall j | 0 <= j < |cs|
      ensures cs[j].key != c.key
    {
      assert cs[j] in cs;
    }
    forall x
      ensures x in Keys(cs + [c]) <==> x in Keys(cs) + {c.key}
    {
      assert c in cs + [c];
      if x in Keys(cs) {
        var d :| d in cs && d.key == x;
        assert d in cs + [c];
      }
    }
  }

  /** The entry made for the first column of a slot: all zeros, P and with k = 2 also Q. */
  function Blank(n: nat, k: nat): Entry {
    Entry(Zeros(n), if k == 2 then Some(Zeros(n)) else None, {})
  }

  /** The column as it enters Q: every byte multiplied by g^rank. */
  function Scaled(c: Contribution): (s: Bytes)
    ensures |s| == |c.column| && forall i :: 0 <= i < |s| ==> s[i] == Term(c, Q, i)
  {
    GfMulScalar(GfPow(2, c.rank), c.column)
  }

  /** The entry with one more column folded in, as it is into P and scaled into Q. */
  function Folded(e: Entry, key: StageKey, column: Bytes, scaled: Bytes): Entry
    requires |scaled| == |column|
  {
    Entry(
      XorPrefix(Grown(e.parity, |column|), column),
      if e.qParity.Some? then Some(XorPrefix(Grown(e.qParity.value, |column|), scaled)) else None,
      e.contributors + {key})
  }

  lemma BlankHoldsNothing(k: nat)
    ensures Holds(Blank(0, k), [], k)
  {}

  lemma BlankGrows(n: nat, k: nat, key: StageKey, column: Bytes, scaled: Bytes)
    requires n == |column| == |scaled|
    ensures Folded(Blank(n, k), key, column, scaled) == Folded(Blank(0, k), key, column, scaled)
  {
    assert Grown(Zeros(n), n) == Grown(Zeros(0), n);
  }

  lemma FoldedHolds(e: Entry, cs: seq<Contribution>, c: Contribution, k: nat)
    requires Holds(e, cs, k) && c.key !in e.contributors
    ensures Holds(Folded(e, c.key, c.column, Scaled(c)), cs + [c], k)
  {
    KeysAppend(cs, c);
    FoldIn(e.parity, cs, c, P, c.column);
    if e.qParity.Some? {
      FoldIn(e.qParity.value, cs, c, Q, Scaled(c));
    }
  }

  /** The entry of a slot, or the blank one its first column starts from. */
  function EntryAt(m: Slots, p: int, k: nat): Entry {
    if p in m then m[p] else Blank(0, k)
  }

  /** Request r becomes the most recent and gets new slots; older requests may be evicted. */
  ghost function Replaced(s: Store<Slots>, r: RequestId, m: Slots, cap: nat): Store<Slots> {
    Evicted(Updated(Touched(s, r, map[]), r, m), RequestBytes, cap, 1)
  }

  ghost function SlotsOf(s: Store<Slots>, r: RequestId): Slots {
    if r in s.entries then s.entries[r] else map[]
  }

  /** One pushed column on the whole cache: a repeated (stage, slot) only refreshes recency. */
  ghost function PushStep(s: Store<Slots>, r: RequestId, p: int, key: StageKey, column: Bytes, scaled: Bytes,
      k: nat, cap: nat): Store<Slots>
    requires |scaled| == |column|
  {
    var e := EntryAt(SlotsOf(s, r), p, k);
    if key in e.contributors then Touched(s, r, map[])
    else Replaced(s, r, SetSlot(SlotsOf(s, r), p, Folded(e, key, column, scaled)), cap)
  }

  /** A push, new or repeated, makes its request the most recent, and may push out the oldest. */
  lemma PushOrder(s: Store<Slots>, r: RequestId, p: int, key: StageKey, column: Bytes, scaled: Bytes, k: nat, cap: nat)
    requires WellFormed(s) && |scaled| == |column|
    ensures var u := PushStep(s, r, p, key, column, scaled, k, cap);
      exists mid, n :: MadeNewest(s.order, mid, r) && 0 <= n <= |mid| && u.order == mid[n..]
  {
    TouchedIsNewest(s, r, map[]);
    var t := Touched(s, r, map[]);
    assert t.order == t.order[0..];
    var e := EntryAt(SlotsOf(s, r), p, k);
    if key !in e.contributors {
      var v := Updated(t, r, SetSlot(SlotsOf(s, r), p, Folded(e, key, column, scaled)));
      var n := EvictedIsDropped(v, RequestBytes, cap, 1);
      DroppedOrder(v, n);
      assert PushStep(s, r, p, key, column, scaled, k, cap).order == t.order[n..];
    }
  }

  ghost function LogsFor(log: map<RequestId, Logs>, r: RequestId): Logs {
    if r in log then log[r] else map[]
  }

  /** The contributions of every request held. */
  ghost predicate AllHold(entries: map<RequestId, Slots>, log: map<RequestId, Logs>, k: nat) {
    forall r {:trigger SlotsHold(entries[r], LogsFor(log, r), k)} :: r in entries ==>
      SlotsHold(entries[r], LogsFor(log, r), k)
  }

  ghost function ContributionsAt(logs: Logs, p: int): seq<Contribution> {
    if p in logs then logs[p] else []
  }

  ghost function PushLog(logs: Logs, p: int, c: Contribution, repeated: bool): Logs {
    if repeated then logs else SetLog(logs, p, ContributionsAt(logs, p) + [c])
  }

  lemma SlotsPushHolds(m: Slots, logs: Logs, p: int, c: Contribution, k: nat)
    requires SlotsHold(m, logs, k)
    ensures c.key in EntryAt(m, p, k).contributors <==> c.key in Keys(ContributionsAt(logs, p))
    ensures c.key !in EntryAt(m, p, k).contributors ==>
      SlotsHold(SetSlot(m, p, Folded(EntryAt(m, p, k), c.key, c.column, Scaled(c))), PushLog(logs, p, c, false), k)
  {
    var e, cs := EntryAt(m, p, k), ContributionsAt(logs, p);
    BlankHoldsNothing(k);
    if p in m {
      assert Holds(m[p], logs[p], k);
    }
    if c.key !in e.contributors {
      FoldedHolds(e, cs, c, k);
      SlotsHoldSet(m, logs, k, p, Folded(e, c.key, c.column, Scaled(c)), cs + [c]);
    }
  }

  lemma ReplacedHolds(s: Store<Slots>, log: map<RequestId, Logs>, k: nat, r: RequestId, m: Slots, logs: Logs, cap: nat)
    requires AllHold(s.entries, log, k) && SlotsHold(m, logs, k)
    ensures AllHold(Replaced(s, r, m, cap).entries, log[r := logs], k)
  {
    EvictedEntries(Updated(Touched(s, r, map[]), r, m), RequestBytes, cap, 1);
    var t := Replaced(s, r, m, cap);
    forall x | x in t.entries
      ensures SlotsHold(t.entries[x], LogsFor(log[r := logs], x), k)
    {
      assert x != r ==> SlotsHold(s.entries[x], LogsFor(log, x), k);
    }
  }

  lemma TouchedHolds(s: Store<Slots>, log: map<RequestId, Logs>, k: nat, r: RequestId, logs: Logs)
    requires AllHold(s.entries, log, k) && SlotsHold(SlotsOf(s, r), logs, k)
    ensures AllHold(Touched(s, r, map[]).entries, log[r := logs], k)
    ensures AllHold(s.entries - {r}, log, k)
  {
    var t := Touched(s, r, map[]);
    forall x | x in t.entries
      ensures SlotsHold(t.entries[x], LogsFor(log[r := logs], x), k)
    {
      assert x != r ==> SlotsHold(s.entries[x], LogsFor(log, x), k);
    }
    forall x | x in s.entries - {r}
      ensures SlotsHold((s.entries - {r})[x], LogsFor(log, x), k)
    {
      assert SlotsHold(s.entries[x], LogsFor(log, x), k);
    }
  }

  lemma PushOthers(s: Store<Slots>, r: RequestId, p: int, key: StageKey, column: Bytes, scaled: Bytes, k: nat, cap: nat)
    requires |scaled| == |column|
    ensures forall x :: x in PushStep(s, r, p, key, column, scaled, k, cap).entries && x != r ==> x in s.entries
  {
    var m := SetSlot(SlotsOf(s, r), p, Folded(EntryAt(SlotsOf(s, r), p, k), key, column, scaled));
    EvictedEntries(Updated(Touched(s, r, map[]), r, m), RequestBytes, cap, 1);
  }

  /** A push keeps every entry the fold of its logged contributions. */
  lemma PushHolds(s: Store<Slots>, log: map<RequestId, Logs>, r: RequestId, p: int, c: Contribution, k: nat, cap: nat,
      logs: Logs)
    requires AllHold(s.entries, log, k) && SlotsHold(SlotsOf(s, r), logs, k)
    ensures AllHold(PushStep(s, r, p, c.key, c.column, Scaled(c), k, cap).entries,
      log[r := PushLog(logs, p, c, c.key in Keys(ContributionsAt(logs, p)))], k)
  {
    var m := SlotsOf(s, r);
    SlotsPushHolds(m, logs, p, c, k);
    if c.key in EntryAt(m, p, k).contributors {
      TouchedHolds(s, log, k, r, logs);
    } else {
      ReplacedHolds(s, log, k, r, SetSlot(m, p, Folded(EntryAt(m, p, k), c.key, c.column, Scaled(c))),
        PushLog(logs, p, c, false), cap);
    }
  }

  lemma LoggedSlots(s: Store<Slots>, log: map<RequestId, Logs>, k: nat, r: RequestId)
    requires AllHold(s.entries, log, k)
    ensures SlotsHold(SlotsOf(s, r), if r in s.entries then LogsFor(log, r) else map[], k)
  {
    if r in s.entries {
      assert SlotsHold(s.entries[r], LogsFor(log, r), k);
    }
  }

  lemma HeldIsEven(m: Slots, logs: Logs, k: nat, p: int)
    requires SlotsHold(m, logs, k) && p in m
    ensures Even(m[p], k)
  {
    assert Holds(m[p], logs[p], k);
  }

  /** P and Q have one length, and Q exists exactly for k = 2. */
  ghost predicate Even(e: Entry, k: nat) {
    (e.qParity.Some? <==> k == 2) && (e.qParity.Some? ==> |e.qParity.value| == |e.parity|)
  }

  /** The bytes that `size` more bytes add to an entry, and that a new entry allocates. */
  function Charged(e: Entry, isNew: bool, size: nat, k: nat): int {
    (if isNew then size * k else 0) + if size > |e.parity| then (if k == 2 then 2 else 1) * (size - |e.parity|) else 0
  }

  lemma FoldedBytes(e: Entry, k: nat, key: StageKey, column: Bytes, scaled: Bytes)
    requires Even(e, k) && |scaled| == |column|
    ensures EntryBytes(Folded(e, key, column, scaled)) == EntryBytes(e) + Charged(e, false, |column|, k)
  {}

  lemma BlankBytes(n: nat, k: nat)
    requires k == 1 || k == 2
    ensures Even(Blank(n, k), k) && EntryBytes(Blank(n, k)) == n * k
  {}

  lemma SetSlotBytes(s: Store<Slots>, r: RequestId, p: int, e: Entry)
    requires r in s.entries
    ensures Total(s.entries[r := SetSlot(s.entries[r], p, e)], RequestBytes) ==
      Total(s.entries, RequestBytes) + EntryBytes(e) -
      (if p in s.entries[r] then EntryBytes(s.entries[r][p]) else 0)
  {
    TotalUpdate(s.entries[r], EntryBytes, p, e);
    TotalUpdate(s.entries, RequestBytes, r, SetSlot(s.entries[r], p, e));
  }

  lemma FoldAccounts(s: Store<Slots>, r: RequestId, p: int, e: Entry, key: StageKey, column: Bytes, scaled: Bytes,
      k: nat)
    requires r in s.entries && |scaled| == |column| && (k == 1 || k == 2) && Even(e, k)
    requires e == if p in s.entries[r] then s.entries[r][p] else Blank(|column|, k)
    ensures var f := Folded(e, key, column, scaled);
      && f == Folded(EntryAt(s.entries[r], p, k), key, column, scaled)
      && Total(s.entries[r := SetSlot(s.entries[r], p, f)], RequestBytes) ==
        Total(s.entries, RequestBytes) + Charged(e, p !in s.entries[r], |column|, k)
  {
    BlankGrows(|column|, k, key, column, scaled);
    BlankBytes(|column|, k);
    FoldedBytes(e, k, key, column, scaled);
    SetSlotBytes(s, r, p, Folded(e, key, column, scaled));
  }

  /** A column that fits evicts nothing. */
  lemma PushFits(s: Store<Slots>, log: map<RequestId, Logs>, r: RequestId, p: int, key: StageKey, column: Bytes,
      scaled: Bytes, k: nat, cap: nat)
    requires AllHold(s.entries, log, k) && (k == 1 || k == 2) && |scaled| == |column|
    requires Total(s.entries, RequestBytes) + k * |column| <= cap
    ensures var u := PushStep(s, r, p, key, column, scaled, k, cap);
      && r in u.entries && Total(u.entries, RequestBytes) <= Total(s.entries, RequestBytes) + k * |column|
      && forall x :: x in s.entries && x != r ==> x in u.entries && u.entries[x] == s.entries[x]
  {
    var t, e := Touched(s, r, map[]), EntryAt(SlotsOf(s, r), p, k);
    if r !in s.entries {
      TotalUpdate(s.entries, RequestBytes, r, map[]);
    }
    if key !in e.contributors {
      LoggedSlots(s, log, k, r);
      var held := if p in t.entries[r] then t.entries[r][p] else Blank(|column|, k);
      BlankBytes(|column|, k);
      if p in t.entries[r] {
        HeldIsEven(s.entries[r], LogsFor(log, r), k, p);
      }
      FoldAccounts(t, r, p, held, key, column, scaled, k);
      ChargedLittle(held, p !in t.entries[r], |column|, k);
    }
  }

  lemma ChargedLittle(e: Entry, isNew: bool, size: nat, k: nat)
    requires (k == 1 || k == 2) && (isNew ==> |e.parity| == size)
    ensures Charged(e, isNew, size, k) <= k * size
  {}

  method SumEntries(m: Slots) returns (n: nat)
    ensures n == RequestBytes(m)
  {
    n := 0;
    var rest := m;
    while rest != map[]
      invariant n + RequestBytes(rest) == RequestBytes(m)
      decreases |rest|
    {
      ghost var q := SomeKey(rest);
      assert q in rest;
      var p: int :| p in rest;
      TotalRemove(rest, EntryBytes, p);
      n := n + |rest[p].parity| + match rest[p].qParity { case Some(q) => |q| case None => 0 };
      rest := rest - {p};
    }
  }

  class ParityCache {
    const numStages: nat
    const maxBytes: nat
    const k: nat
    var order: seq<RequestId>
    var entries: map<RequestId, Slots>
    var bytesUsed: int
    /** The contributions of each slot held, in arrival order. */
    ghost var log: map<RequestId, Logs>

    ghost function State(): Store<Slots>
      reads this
    {
      Store(order, entries)
    }

    ghost predicate Logged()
      reads this
    {
      AllHold(entries, log, k)
    }

    ghost predicate Accounted()
      reads this
    {
      WellFormed(State()) && bytesUsed == Total(entries, RequestBytes) && (k == 1 || k == 2)
    }

    /** Above the limit only while a single request is held. */
    ghost predicate WithinLimit()
      reads this
    {
      bytesUsed <= maxBytes || |order| <= 1
    }

    ghost predicate Valid()
      reads this
    {
      Accounted() && Logged() && WithinLimit()
    }

    /** What was contributed to a request since it was last absent. */
    ghost function LogOf(r: RequestId): Logs
      reads this
    {
      if r in entries then LogsFor(log, r) else map[]
    }

    /** The contributions folded into one slot. */
    ghost function LogAt(r: RequestId, p: int): seq<Contribution>
      reads this
    {
      ContributionsAt(LogOf(r), p)
    }

    constructor (numStages: nat, maxBytes: nat, k: nat)
      requires k == 1 || k == 2
      ensures Valid() && this.numStages == numStages && this.maxBytes == maxBytes && this.k == k
      ensures entries == map[]
    {
      this.numStages, this.maxBytes, this.k := numStages, maxBytes, k;
      order, entries, bytesUsed, log := [], map[], 0, map[];
    }

    /** Fold one stage's column into the blobs of its slot, at most once per stage. */
    method XorIn(r: RequestId, key: StageKey, position: int, column: Bytes, rank: nat)
      requires Valid()
      modifies this
      ensures Valid()
      ensures State() == PushStep(old(State()), r, position, key, column, Scaled(Contribution(key, rank, column)),
        k, maxBytes)
      ensures r in entries && position in entries[r]
      ensures log == old(log)[r := PushLog(old(LogOf(r)), position, Contribution(key, rank, column),
        key in Keys(old(LogAt(r, position))))]
      ensures forall s :: s in entries && s != r ==> s in old(entries)
    {
      var c := Contribution(key, rank, column);
      var scaled := Scaled(c);
      ghost var logs := LogOf(r);
      ghost var after := log[r := PushLog(logs, position, c, key in Keys(ContributionsAt(logs, position)))];
      LoggedSlots(State(), log, k, r);
      PushHolds(State(), log, r, position, c, k, maxBytes, logs);
      PushOthers(State(), r, position, key, column, scaled, k, maxBytes);
      if r in entries && position in entries[r] {
        HeldIsEven(entries[r], logs, k, position);
      }
      FoldColumn(r, key, position, column, scaled);
      log := after;
    }

    /** The locked body of XorIn. */
    method FoldColumn(r: RequestId, key: StageKey, position: int, column: Bytes, scaled: Bytes)
      requires Accounted() && WithinLimit() && |scaled| == |column|
      requires r in entries && position in entries[r] ==> Even(entries[r][position], k)
      modifies this`order, this`entries, this`bytesUsed
      ensures Accounted() && WithinLimit()
      ensures State() == PushStep(old(State()), r, position, key, column, scaled, k, maxBytes)
      ensures r in entries && position in entries[r]
    {
      hide Folded, Charged, Even;
      Touch(r);
      var held := entries[r];
      assert held == SlotsOf(old(State()), r);
      if position in held && key in held[position].contributors {
        return;
      }
      var entry := if position in held then held[position] else Blank(|column|, k);
      BlankBytes(|column|, k);
      FoldAccounts(State(), r, position, entry, key, column, scaled, k);
      var slots := SetSlot(held, position, Folded(entry, key, column, scaled));
      Charge(entry, position !in held, |column|);
      Install(r, slots);
    }

    /** Count the bytes a new slot allocates and those by which its blobs grow. */
    method Charge(entry: Entry, isNew: bool, size: nat)
      requires Even(entry, k) && (k == 1 || k == 2)
      modifies this`bytesUsed
      ensures bytesUsed == old(bytesUsed) + Charged(entry, isNew, size, k)
    {
      if isNew {
        bytesUsed := bytesUsed + size * k;
      }
      if size > |entry.parity| {
        bytesUsed := bytesUsed + (size - |entry.parity|);
        if entry.qParity.Some? {
          bytesUsed := bytesUsed + (size - |entry.qParity.value|);
        }
      }
    }

    /** Enter a request if it is new, and make it the most recent. */
    method Touch(r: RequestId)
      requires Accounted()
      modifies this`order, this`entries
      ensures Accounted() && State() == Touched(old(State()), r, map[])
    {
      TouchedWellFormed(State(), r, map[]);
      if r !in entries {
        TotalUpdate(entries, RequestBytes, r, map[]);
        entries := entries[r := map[]];
      }
      order := Without(order, r) + [r];
    }

    /** Give the most recent request its new slots, whose bytes are already counted. */
    method Install(r: RequestId, slots: Slots)
      requires WellFormed(State()) && order != [] && order[|order| - 1] == r && (k == 1 || k == 2)
      requires bytesUsed == Total(entries[r := slots], RequestBytes)
      modifies this`order, this`entries, this`bytesUsed
      ensures Accounted() && WithinLimit()
      ensures State() == Evicted(Updated(old(State()), r, slots), RequestBytes, maxBytes, 1)
      ensures r in entries && entries[r] == slots
    {
      assert r in order;
      entries := entries[r := slots];
      EvictedKeepsNewest(State(), RequestBytes, maxBytes, 1);
      EvictIfNeeded();
    }

    method EvictIfNeeded()
      requires Accounted()
      modifies this`order, this`entries, this`bytesUsed
      ensures Accounted() && WithinLimit()
      ensures State() == Evicted(old(State()), RequestBytes, maxBytes, 1)
    {
      while bytesUsed > maxBytes && |order| > 1
        invariant Accounted()
        invariant Evicted(State(), RequestBytes, maxBytes, 1) == Evicted(old(State()), RequestBytes, maxBytes, 1)
        decreases |order|
      {
        PopOldestWellFormed(State());
        TotalRemove(entries, RequestBytes, order[0]);
        var n := SumEntries(entries[order[0]]);
        bytesUsed := bytesUsed - n;
        order, entries := order[1..], entries - {order[0]};
      }
    }

    method EvictRequest(r: RequestId)
      requires Valid()
      modifies this`order, this`entries, this`bytesUsed
      ensures Valid() && State() == Removed(old(State()), r) && entries == old(entries) - {r}
    {
      TouchedWellFormed(State(), r, map[]);
      LoggedSlots(State(), log, k, r);
      TouchedHolds(State(), log, k, r, LogOf(r));
      if r in entries {
        TotalRemove(entries, RequestBytes, r);
        var n := SumEntries(entries[r]);
        bytesUsed := bytesUsed - n;
        order, entries := Without(order, r), entries - {r};
      } else {
        assert entries - {r} == entries;
      }
    }

    lemma EntryHolds(r: RequestId, p: int)
      requires Valid() && r in entries
      ensures p in entries[r] <==> p in LogOf(r)
      ensures p in entries[r] ==> Holds(entries[r][p], LogAt(r, p), k)
    {
      assert SlotsHold(entries[r], LogsFor(log, r), k);
      assert p in entries[r] ==> Holds(entries[r][p], LogsFor(log, r)[p], k);
    }

    method IsComplete(r: RequestId, position: int) returns (ok: bool)
      requires Valid()
      ensures ok ==> r in entries && position in entries[r]
      ensures r in entries && position in entries[r] ==>
        (ok <==> |Keys(LogAt(r, position))| == numStages)
    {
      if r in entries {
        EntryHolds(r, position);
      }
      ok := r in entries && position in entries[r] && |entries[r][position].contributors| == numStages;
    }

    method GetParity(r: RequestId, position: int) returns (blob: Option<Bytes>)
      requires Valid()
      ensures blob.Some? <==> r in entries && position in entries[r]
      ensures blob.Some? ==> IsFold(blob.value, LogAt(r, position), P)
    {
      if r in entries && position in entries[r] {
        EntryHolds(r, position);
        return Some(entries[r][position].parity);
      }
      blob := None;
    }

    method GetQParity(r: RequestId, position: int) returns (blob: Option<Bytes>)
      requires Valid()
      ensures blob.Some? <==> r in entries && position in entries[r] && k == 2
      ensures blob.Some? ==> IsFold(blob.value, LogAt(r, position), Q)
    {
      if r in entries && position in entries[r] {
        EntryHolds(r, position);
        return entries[r][position].qParity;
      }
      blob := None;
    }
  }
}
