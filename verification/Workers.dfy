/**
 A worker's stage executor: the layer ranges it has loaded, the backups it holds for other
 devices, and one append-only KV per request and range.
 */
module Workers {
  import opened Wrappers
  import opened Types
  import opened ByteStrings
  import opened KvLayout
  import opened Reference

  datatype CacheKey = CacheKey(request: RequestId, key: StageKey)

  datatype WorkerError = NoStage | NoBackup | NoCache | NoHead | SizeMismatch

  datatype Runner = Runner(
    stages: set<StageKey>,
    backupFor: map<StageKey, DeviceId>,
    promoted: set<StageKey>,
    hasHead: bool,
    kv: map<CacheKey, Kv>)

  /** A new primary starts a new plan: nothing of the previous one survives but a loaded head. */
  function PrimaryLoaded(r: Runner, key: StageKey): Runner {
    Runner({key}, map[], {}, r.hasHead, map[])
  }

  function BackupLoaded(r: Runner, key: StageKey, owner: DeviceId): Runner {
    r.(stages := r.stages + {key}, backupFor := r.backupFor[key := owner])
  }

  function BackupsFor(r: Runner, owner: DeviceId): set<StageKey> {
    set k | k in r.backupFor && r.backupFor[k] == owner
  }

  function RequestEvicted(r: Runner, request: RequestId): Runner {
    r.(kv := map c | c in r.kv && c.request != request :: r.kv[c])
  }

  /** The KV a run starts from: a prefill resets it, a missing one is empty. */
  function Base(r: Runner, request: RequestId, key: StageKey, prefill: bool): Kv {
    if !prefill && CacheKey(request, key) in r.kv then r.kv[CacheKey(request, key)] else []
  }

  /** One run of a stage: its columns are appended to the KV it started from. */
  function StageRan(r: Runner, m: Model, request: RequestId, key: StageKey, blob: Bytes, prefill: bool): Runner {
    var base := Base(r, request, key, prefill);
    r.(kv := r.kv[CacheKey(request, key) := base + m.columns(key, base, blob)])
  }

  /** Every KV column has its range's size. */
  ghost predicate KvSized(r: Runner, g: Geometry) {
    forall c :: c in r.kv ==> Sized(r.kv[c], c.key, g)
  }

  lemma StageRanSized(r: Runner, m: Model, g: Geometry, request: RequestId, key: StageKey, blob: Bytes, prefill: bool)
    requires KvSized(r, g) && Regular(m, g)
    ensures KvSized(StageRan(r, m, request, key, blob, prefill), g)
  {
    var base := Base(r, request, key, prefill);
    assert RegularAt(m, g, key, base, blob);
    assert Sized(base, key, g);
  }

  class StageRunner {
    const model: Model
    const geometry: Geometry
    var stages: set<StageKey>
    var backupFor: map<StageKey, DeviceId>
    var promoted: set<StageKey>
    var hasHead: bool
    var kv: map<CacheKey, Kv>

    ghost function State(): Runner
      reads this
    {
      Runner(stages, backupFor, promoted, hasHead, kv)
    }

    ghost predicate Valid()
      reads this
    {
      Regular(model, geometry) && geometry.Valid() && KvSized(State(), geometry)
    }

    constructor (model: Model, geometry: Geometry)
      requires Regular(model, geometry) && geometry.Valid()
      ensures Valid() && this.model == model && this.geometry == geometry
      ensures State() == Runner({}, map[], {}, false, map[])
    {
      this.model, this.geometry := model, geometry;
      stages, backupFor, promoted, hasHead, kv := {}, map[], {}, false, map[];
    }

    method LoadPrimary(key: StageKey)
      requires Valid()
      modifies this
      ensures Valid() && State() == PrimaryLoaded(old(State()), key)
      ensures stages == {key} && backupFor == map[] && promoted == {} && kv == map[] && hasHead == old(hasHead)
    {
      var stale := set k | k in stages && k != key;
      stages := stages - stale;
      backupFor, promoted, kv := map[], {}, map[];
      if key !in stages {
        stages := stages + {key};
      }
    }

    /** A range that is already resident is reused as the backup. */
    method LoadBackup(key: StageKey, owner: DeviceId)
      requires Valid()
      modifies this
      ensures Valid() && State() == BackupLoaded(old(State()), key, owner)
      ensures stages == old(stages) + {key} && backupFor == old(backupFor)[key := owner]
      ensures promoted == old(promoted) && hasHead == old(hasHead) && kv == old(kv)
    {
      if key in stages {
        backupFor := backupFor[key := owner];
        return;
      }
      stages := stages + {key};
      backupFor := backupFor[key := owner];
    }

    method LoadHead()
      requires Valid()
      modifies this
      ensures Valid() && State() == old(State()).(hasHead := true)
    {
      hasHead := true;
    }

    method PromoteBackup(owner: DeviceId) returns (r: Result<set<StageKey>, WorkerError>)
      requires Valid()
      modifies this
      ensures Valid()
      ensures r ==
        if BackupsFor(old(State()), owner) == {} then Failure(NoBackup) else Success(BackupsFor(old(State()), owner))
      ensures State() == old(State()).(promoted := old(promoted) + BackupsFor(old(State()), owner))
    {
      var keys := set k | k in backupFor && backupFor[k] == owner;
      if keys == {} {
        assert promoted + keys == promoted;
        return Failure(NoBackup);
      }
      promoted := promoted + keys;
      r := Success(keys);
    }

    method EvictRequest(request: RequestId)
      requires Valid()
      modifies this
      ensures Valid() && State() == RequestEvicted(old(State()), request)
      ensures State() == old(State()).(kv := kv) && kv.Keys == set c | c in old(kv) && c.request != request
      ensures forall c :: c in kv ==> kv[c] == old(kv)[c]
    {
      kv := map c | c in kv && c.request != request :: kv[c];
    }

    method Run(request: RequestId, blob: Bytes, key: StageKey, prefill: bool) returns (r: Result<Bytes, WorkerError>)
      requires Valid()
      modifies this
      ensures Valid() && (r.Failure? <==> key !in stages)
      ensures r.Failure? ==> State() == old(State())
      ensures r.Success? ==> State() == StageRan(old(State()), model, request, key, blob, prefill)
      ensures r.Success? ==> r.value == model.output(key, Base(old(State()), request, key, prefill), blob)
    {
      if key !in stages {
        return Failure(NoStage);
      }
      StageRanSized(State(), model, geometry, request, key, blob, prefill);
      var cacheKey := CacheKey(request, key);
      if prefill {
        kv := kv[cacheKey := []];
      }
      if cacheKey !in kv {
        kv := kv[cacheKey := []];
      }
      var cache := kv[cacheKey];
      kv := kv[cacheKey := cache + model.columns(key, cache, blob)];
      r := Success(model.output(key, cache, blob));
    }

    /** The chain tail's path: run, apply the head and sample, in one call. */
    method RunTailAndSample(request: RequestId, blob: Bytes, key: StageKey, prefill: bool)
      returns (r: Result<Token, WorkerError>)
      requires Valid()
      modifies this
      ensures Valid() && (r.Failure? <==> !hasHead || key !in stages)
      ensures r.Failure? ==> State() == old(State())
      ensures r.Success? ==> State() == StageRan(old(State()), model, request, key, blob, prefill)
      ensures r.Success? ==>
        r.value == model.sample(model.output(key, Base(old(State()), request, key, prefill), blob))
    {
      if !hasHead {
        return Failure(NoHead);
      }
      var hidden := Run(request, blob, key, prefill);
      match hidden
      case Failure(e) => return Failure(e);
      case Success(h) => r := Success(model.sample(h));
    }

    method KvSeqLen(request: RequestId, key: StageKey) returns (n: nat)
      ensures n == |Base(State(), request, key, false)|
    {
      n := if CacheKey(request, key) in kv then |kv[CacheKey(request, key)]| else 0;
    }

    /** One slot of a range's KV: the bytes the parity push ships. */
    method ExtractKvColumn(request: RequestId, key: StageKey, position: nat) returns (r: Result<Bytes, WorkerError>)
      ensures r.Failure? <==> CacheKey(request, key) !in kv
      ensures r.Success? && position < |kv[CacheKey(request, key)]| ==> r.value == kv[CacheKey(request, key)][position]
    {
      if CacheKey(request, key) !in kv {
        return Failure(NoCache);
      }
      var columns := kv[CacheKey(request, key)];
      r := Success(if position < |columns| then columns[position] else []);
    }

    /** A range's whole KV in layer-major order, whatever position was asked for. */
    method ExportKv(request: RequestId, key: StageKey) returns (r: Result<Bytes, WorkerError>)
      requires Valid()
      ensures r.Failure? <==> CacheKey(request, key) !in kv
      ensures r.Success? ==> Sized(kv[CacheKey(request, key)], key, geometry)
      ensures r.Success? ==>
        r.value == SlotMajorToLayerMajor(kv[CacheKey(request, key)], geometry.Lanes(key), geometry.row)
    {
      if CacheKey(request, key) !in kv {
        return Failure(NoCache);
      }
      r := Success(SlotMajorToLayerMajor(kv[CacheKey(request, key)], geometry.Lanes(key), geometry.row));
    }

    /** Replace a range's KV by what the bytes describe; a size mismatch is refused. */
    method InstallKv(request: RequestId, key: StageKey, bytes: Bytes, slots: nat) returns (r: Result<(), WorkerError>)
      requires Valid()
      modifies this
      ensures Valid()
      ensures r.Failure? <==> |bytes| != geometry.Lanes(key) * (slots * geometry.row)
      ensures r.Failure? ==> State() == old(State())
      ensures r.Success? ==> State() == old(State()).(kv := old(kv)[CacheKey(request, key) :=
        LayerMajorToSlots(bytes, geometry.Lanes(key), slots, geometry.row)])
    {
      if |bytes| != geometry.Lanes(key) * (slots * geometry.row) {
        return Failure(WorkerError.SizeMismatch);
      }
      LayerMajorTransposes(bytes, geometry.Lanes(key), slots, geometry.row);
      var columns := LayerMajorToSlots(bytes, geometry.Lanes(key), slots, geometry.row);
      assert Sized(columns, key, geometry);
      kv := kv[CacheKey(request, key) := columns];
      r := Success(());
    }
  }

  /** What one runner exports, another installs: the KV arrives column for column. */
  lemma ExportedKvInstalls(kv: Kv, key: StageKey, g: Geometry)
    requires Sized(kv, key, g)
    ensures var bytes := SlotMajorToLayerMajor(kv, g.Lanes(key), g.row);
      |bytes| == g.Lanes(key) * (|kv| * g.row) && LayerMajorToSlots(bytes, g.Lanes(key), |kv|, g.row) == kv
  {
    TransposesInvert(kv, g.Lanes(key), g.row);
  }
}
