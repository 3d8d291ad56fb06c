/** The storage server: the registry, its state file, and the calls that edit the registry
    together with the kernel.  What a call does before it takes the write lock is a method of
    its own, so the part under the lock can be given the result of any earlier scan. */
module SigmaServer {
  import opened Types
  import opened Names
  import opened KernelTree
  import opened Frames
  import opened Convergence
  import opened Registry
  import opened Outcomes
  import opened Recovery
  import Lio
  import Reconciler

  // Id allocation.

  predicate Taken(targets: seq<Target>, id: u16) {
    exists t | t in targets :: t.id == id
  }

  /** The least id from 1 to 65534 that no scanned target has, or 0 when there is none. */
  method FirstFreePoolId(targets: seq<Target>) returns (id: u16)
    ensures id == 0 <==> forall i: u16 | 1 <= i < 65535 :: Taken(targets, i)
    ensures id != 0 ==> id < 65535 && !Taken(targets, id) && forall i: u16 | 1 <= i < id :: Taken(targets, i)
  {
    id := 0;
    for i := 0 to 65535
      invariant id == 0
      invariant forall j: u16 | 1 <= j < i :: Taken(targets, j)
    {
      if i == 0 { continue; }
      if Taken(targets, i) { continue; }
      id := i;
      break;
    }
  }

  /** One above the largest scanned backstore id and the high-water mark, in 16 bits, where 0
      means exhausted; but 1 when nothing was scanned. */
  method NextVolumeId(backstores: seq<Backstore>, maxLunId: u16) returns (id: u16)
    ensures backstores == [] ==> id == 1
    ensures backstores != [] ==> (id == 0 <==> maxLunId == 65535 || exists b | b in backstores :: b.id == 65535)
    ensures backstores != [] && id != 0 ==> id > maxLunId && forall b | b in backstores :: id > b.id
    ensures backstores != [] && id != 0 ==> id == maxLunId + 1 || exists b | b in backstores :: id == b.id + 1
  {
    var ids: seq<u16> := [];
    for i := 0 to |backstores|
      invariant |ids| == i && forall j | 0 <= j < i :: ids[j] == backstores[j].id
    {
      ids := ids + [backstores[i].id];
    }
    if |ids| == 0 { return 1; }
    var last := Largest(ids);
    id := ToU16(Max(maxLunId, last) + 1);
  }

  /** The last element of the sorted ids. */
  method Largest(ids: seq<u16>) returns (m: u16)
    requires ids != []
    ensures m in ids && forall i | 0 <= i < |ids| :: ids[i] <= m
  {
    m := ids[0];
    for i := 1 to |ids|
      invariant m in ids && forall j | 0 <= j < i :: ids[j] <= m
    {
      m := Max(m, ids[i]);
    }
  }

  // The server's memory.

  /** The map object that a pool of the registry points to. */
  class VolumeMap {
    var volumes: map<u16, StateVolume>

    constructor (volumes: map<u16, StateVolume>)
      ensures this.volumes == volumes
    {
      this.volumes := volumes;
    }
  }

  /** A pool in memory: its map is missing until the first volume is made. */
  datatype Pool = Pool(id: u16, name: string, volumeMap: VolumeMap?)

  class Server {
    const cfg: ServerConfig
    const k: Kernel
    const flakyDisk: bool   // reading and writing the state file may fail
    var maxLunId: u16
    var pools: map<u16, Pool>
    var file: StateFile
    ghost var st: State

    /** The map objects of the registered pools. */
    ghost function Maps(): set<VolumeMap?>
      reads `pools
    {
      set p | p in pools && pools[p].volumeMap != null :: pools[p].volumeMap
    }

    function VolumesOf(pool: Pool): map<u16, StateVolume>
      reads pool.volumeMap
    {
      if pool.volumeMap == null then map[] else pool.volumeMap.volumes
    }

    /** The registry that memory holds. */
    function Snapshot(): State
      reads `pools, `maxLunId, Maps()
    {
      State(maxLunId, map p | p in pools :: StatePool(pools[p].id, pools[p].name, VolumesOf(pools[p])))
    }

    /** No two pools share a map object. */
    ghost predicate Apart()
      reads `pools
    {
      forall p, q | p in pools && q in pools && p != q && pools[p].volumeMap != null ::
        pools[p].volumeMap != pools[q].volumeMap
    }

    ghost function Now(): World
      reads this, k
    {
      World(k.fs, st, file)
    }

    /** Memory holds `st`, no map is shared, and the registries in memory and file are sound. */
    ghost predicate Valid()
      reads this, k, Maps()
    {
      k.fs.Wf() && Apart() && st == Snapshot() && Sound(st) && (file.Holds? ==> Sound(file.state))
    }

    constructor (cfg: ServerConfig, k: Kernel, flakyDisk: bool, file: StateFile)
      ensures this.cfg == cfg && this.k == k && this.flakyDisk == flakyDisk && this.file == file
      ensures st == EMPTY_STATE && pools == map[] && maxLunId == 0
    {
      this.cfg := cfg;
      this.k := k;
      this.flakyDisk := flakyDisk;
      this.file := file;
      this.maxLunId, this.pools := 0, map[];
      this.st := EMPTY_STATE;
    }

    // The state file and the start of the process.

    /** A new map object for every pool of the file. */
    method LoadState() returns (ok: bool)
      requires st == EMPTY_STATE && pools == map[] && maxLunId == 0
      modifies `st, `pools, `maxLunId
      ensures ok ==> !file.Torn? && st == if file.Holds? then file.state else EMPTY_STATE
      ensures !ok ==> st == old(st)
      ensures !flakyDisk ==> ok == !file.Torn?
      ensures Apart() && st == Snapshot() && fresh(Maps())
    {
      if flakyDisk { if * { return false; } }
      match file
      case Absent => ok := true;
      case Torn => ok := false;
      case Holds(s) =>
        Unmarshal(s);
        ok := true;
    }

    method Unmarshal(s: State)
      requires pools == map[]
      modifies `st, `pools, `maxLunId
      ensures Apart() && st == Snapshot() == s && fresh(Maps())
    {
      var todo := s.pools.Keys;
      while todo != {}
        invariant todo <= s.pools.Keys && pools.Keys == s.pools.Keys - todo
        invariant Apart()
        invariant forall p | p in pools :: pools[p].volumeMap != null && fresh(pools[p].volumeMap)
        invariant forall p | p in pools :: pools[p].id == s.pools[p].id && pools[p].name == s.pools[p].name
        invariant forall p | p in pools :: VolumesOf(pools[p]) == s.pools[p].volumes
        decreases todo
      {
        var p :| p in todo;
        ghost var made := Maps();
        var volumes := new VolumeMap(s.pools[p].volumes);
        assert volumes !in made;
        pools := pools[p := Pool(s.pools[p].id, s.pools[p].name, volumes)];
        todo := todo - {p};
      }
      maxLunId := s.maxLunId;
      st := s;
      assert Snapshot().pools == s.pools;
    }

    method SaveState() returns (ok: bool)
      requires st == Snapshot()
      modifies `file
      ensures Saved(old(file), st, file, ok) && (!flakyDisk ==> ok)
    {
      if flakyDisk { if * { return false; } }
      file := Torn;
      if flakyDisk { if * { return false; } }
      file := Holds(Snapshot());
      ok := true;
    }

    /** The process starts again from the file it finds: memory is lost and loaded again. */
    method Reload()
      requires Valid() && file.Holds?
      modifies `st, `pools, `maxLunId
      ensures Valid() && fresh(Maps()) && st == file.state
    {
      st, pools, maxLunId := EMPTY_STATE, map[], 0;
      Unmarshal(file.state);
    }

    /** Load, reconcile, save: what happens before the first call is served. */
    method Start() returns (ok: bool)
      requires Valid() && st == EMPTY_STATE && pools == map[] && maxLunId == 0
      modifies this, k
      ensures Valid() && fresh(Maps())
      ensures old(file).Torn? ==> !ok
      ensures ok ==> st == (if old(file).Holds? then old(file).state else EMPTY_STATE) && file == Holds(st)
      ensures ok && Reconciler.Repairable(cfg, old(k.fs), st) ==> Converged(k.fs, GoalOf(cfg, st))
      ensures var r := if old(file).Holds? then old(file).state else EMPTY_STATE;
              !k.flaky && !flakyDisk && !old(file).Torn? && Reconciler.Repairable(cfg, old(k.fs), r) ==> ok
      ensures ok ==> Reconciler.KeepsLive(old(k.fs), k.fs, st.pools)
      ensures ok ==> !Reconciler.DeadBesideLive(old(k.fs), cfg.baseIqn, st.pools)
      ensures Reconciler.Spares(old(k.fs), k.fs, cfg.baseIqn, Reconciler.VolumeFiles(cfg, st))
      ensures ok ==> Reconciler.AllServed(k.fs, cfg, st) && Reconciler.OnlyLive(k.fs, cfg.baseIqn, st)
      ensures var r := if old(file).Holds? then old(file).state else EMPTY_STATE;
              !ok && !k.flaky && !flakyDisk && !old(file).Torn? ==>
                exists e | e !in {Ok, Fault} :: Reconciler.Obstacle(old(k.fs), k.fs, cfg, r, e)
    {
      hide Reconciler.AllServed, Reconciler.OnlyLive, Reconciler.Obstacle, Reconciler.Repairable, Converged, GoalOf,
        Sound, Reconciler.Progress, Reconciler.KeepsLive, Reconciler.DeadBesideLive, Reconciler.SerialsSet,
        Reconciler.Spares, Reconciler.VolumeFiles;
      Reconciler.SparesRefl(k.fs, cfg.baseIqn, Reconciler.VolumeFiles(cfg, st));
      var loaded := LoadState();
      if !loaded { return false; }
      var e := ReconcileAll();
      if e != Ok { return false; }
      ok := SaveState();
    }

    /** The reconcile of the registry in memory, which it only reads. */
    method ReconcileAll() returns (e: Err)
      requires k.fs.Wf() && st == Snapshot()
      modifies k
      ensures k.fs.Wf()
      ensures Reconciler.Repairable(cfg, old(k.fs), st) ==>
          && Reconciler.Progress(old(k.fs), k.fs, GoalOf(cfg, st))
          && e in {Ok, Fault}
          && (e == Ok ==> Converged(k.fs, GoalOf(cfg, st)) && Reconciler.SerialsSet(old(k.fs), k.fs, GoalOf(cfg, st)))
      ensures !k.flaky ==> e != Fault
      ensures !k.flaky && Reconciler.Repairable(cfg, old(k.fs), st) ==> e == Ok
      ensures Reconciler.KeepsLive(old(k.fs), k.fs, st.pools)
      ensures e == Ok ==> !Reconciler.DeadBesideLive(old(k.fs), cfg.baseIqn, st.pools)
      ensures Reconciler.Spares(old(k.fs), k.fs, cfg.baseIqn, Reconciler.VolumeFiles(cfg, st))
      ensures e == Ok ==> Reconciler.AllServed(k.fs, cfg, st) && Reconciler.OnlyLive(k.fs, cfg.baseIqn, st)
      ensures Reconciler.Obstacle(old(k.fs), k.fs, cfg, st, e)
    {
      hide *;
      e := Reconciler.ReconcileAll(k, cfg, Snapshot());
    }

    // CreatePool.

    /** Before the lock: the requested id, or the first one no target has. */
    method ChoosePoolId(inn: CreatePoolRequest) returns (code: Code, id: u16)
      requires k.fs.Wf()
      ensures code in {OK, InvalidArgument, FailedPrecondition, ResourceExhausted}
      ensures code == OK ==> id != 0
      ensures inn.poolId.Some? ==> code == (if ToU16(inn.poolId.value) == 0 then InvalidArgument else OK)
      ensures inn.poolId.Some? && code == OK ==> id == ToU16(inn.poolId.value)
      ensures code in {FailedPrecondition, ResourceExhausted} ==> inn.poolId.None?
      ensures code == InvalidArgument ==> inn.poolId.Some?
      ensures inn.poolId.None? && code == OK ==> FreeTpgId(k.fs, cfg, id) && id < 65535
      ensures inn.poolId.None? && code == OK ==> forall i: u16 | 1 <= i < id :: !FreeTpgId(k.fs, cfg, i)
      ensures code == ResourceExhausted ==> forall i: u16 | 1 <= i < 65535 :: !FreeTpgId(k.fs, cfg, i)
      ensures code == FailedPrecondition ==> k.flaky || BadTargets(k.fs, cfg.baseIqn)
      ensures inn.poolId.None? && BadTargets(k.fs, cfg.baseIqn) ==> code == FailedPrecondition
    {
      hide FreeTpgId, BadTargets, Taken, TargetListed, Listed;
      id := 0;
      if inn.poolId.Some? {
        id := ToU16(inn.poolId.value);
        if id == 0 { return InvalidArgument, id; }
      } else {
        var e, targets := Lio.ListTargets(k, cfg.baseIqn);
        if e != Ok { return FailedPrecondition, id; }
        id := FirstFreePoolId(targets);
        forall i: u16 ensures Taken(targets, i) <==> !FreeTpgId(k.fs, cfg, i) { TakenIffListed(k.fs, cfg, targets, i); }
      }
      if id == 0 { return ResourceExhausted, id; }
      code := OK;
    }

    /** The loop over the registered pools, which stops at the first conflict. */
    method FindPoolConflict(inn: CreatePoolRequest, id: u16) returns (found: bool)
      requires st == Snapshot()
      ensures found <==> PoolConflict(st, inn, id)
    {
      found := false;
      var todo := pools.Keys;
      while todo != {}
        invariant todo <= pools.Keys
        invariant forall p | p in pools && p !in todo ::
            !(pools[p].id == id || (inn.poolName.Some? && pools[p].name == ""))
        decreases todo
      {
        var p :| p in todo;
        if pools[p].id == id || (inn.poolName.Some? && pools[p].name == "") {
          assert p in st.pools && st.pools[p].id == pools[p].id && st.pools[p].name == pools[p].name;
          return true;
        }
        todo := todo - {p};
      }
    }

    method RegisterPool(pool: StatePool)
      requires Apart() && st == Snapshot() && pool.volumes == map[]
      modifies `st, `pools
      ensures Apart() && st == Snapshot() == PutPool(old(st), pool) && Maps() <= old(Maps())
    {
      pools := pools[pool.id := Pool(pool.id, pool.name, null)];
      st := PutPool(st, pool);
      assert Snapshot().pools == st.pools;
    }

    method ForgetPool(id: u16)
      requires Apart() && st == Snapshot()
      modifies `st, `pools
      ensures Apart() && st == Snapshot() == DropPool(old(st), id) && Maps() <= old(Maps())
    {
      pools := pools - {id};
      st := DropPool(st, id);
      assert Snapshot().pools == st.pools;
    }

    /** Under the lock, with the id chosen before it. */
    method CommitPool(inn: CreatePoolRequest, id: u16) returns (res: PoolInfo, code: Code)
      requires Valid() && id != 0
      modifies `st, `pools, `file, k
      ensures Valid() && Maps() <= old(Maps())
      ensures CreatePoolOutcome(cfg, old(Now()), inn, id, Now(), res, code)
      ensures (!k.flaky ==> code != Aborted) && (!flakyDisk ==> code != Internal)
    {
      hide TpgOf, TargetPut, PoolConflict, NewPool, PutPool, Sound, Fs.Wf, CreatePoolOutcome, Saved;
      ghost var before := Now();
      NewPoolIs(inn, id);
      res := PoolInfo(id, Invalid, "", "");
      var conflict := FindPoolConflict(inn, id);
      if conflict {
        RefusedPool(cfg, before, inn, id, res);
        return res, AlreadyExists;
      }
      var pool := NewPool(inn, id);
      var target := TargetOf(cfg, pool);
      res := PoolInfo(id, Degraded, pool.name, target.iqn);
      var e := Lio.UpsertTarget(k, target);
      if e != Ok {
        AddedPool(cfg, before, inn, id, Now(), res, Aborted);
        return res, Aborted;
      }
      res := res.(status := Active);
      PutPoolIsSound(st, inn, id);
      RegisterPool(pool);
      var ok := SaveState();
      code := if ok then OK else Internal;
      AddedPool(cfg, before, inn, id, Now(), res, code);
    }

    method CreatePool(inn: CreatePoolRequest) returns (res: PoolInfo, code: Code, ghost id: u16)
      requires Valid()
      modifies `st, `pools, `file, k
      ensures Valid() && Maps() <= old(Maps())
      ensures code in {InvalidArgument, FailedPrecondition, ResourceExhausted} ==> Now() == old(Now())
      ensures code !in {InvalidArgument, FailedPrecondition, ResourceExhausted} ==>
          CreatePoolOutcome(cfg, old(Now()), inn, id, Now(), res, code)
          && id != 0
          && (inn.poolId.Some? ==> id == ToU16(inn.poolId.value))
          && (inn.poolId.None? ==>
                && FreeTpgId(old(k.fs), cfg, id)
                && forall i: u16 | 1 <= i < id :: !FreeTpgId(old(k.fs), cfg, i))
      ensures code == InvalidArgument <==> inn.poolId.Some? && ToU16(inn.poolId.value) == 0
      ensures code in {FailedPrecondition, ResourceExhausted} ==> inn.poolId.None?
      ensures code == FailedPrecondition ==> k.flaky || BadTargets(old(k.fs), cfg.baseIqn)
      ensures inn.poolId.None? && BadTargets(old(k.fs), cfg.baseIqn) ==> code == FailedPrecondition
      ensures code == ResourceExhausted ==> forall i: u16 | 1 <= i < 65535 :: !FreeTpgId(old(k.fs), cfg, i)
      ensures (!k.flaky ==> code != Aborted) && (!flakyDisk ==> code != Internal)
    {
      hide CreatePoolOutcome, FreeTpgId, BadTargets, Sound, Fs.Wf;
      res := PoolInfo(0, Invalid, "", "");
      var choice, chosen := ChoosePoolId(inn);
      id := chosen;
      if choice != OK { return res, choice, id; }
      res, code := CommitPool(inn, chosen);
      OutcomeCodes(cfg, old(Now()), inn, id, Now(), res, code);
    }

    // DeletePool.

    /** Before the lock: the first listed target with the id, or the zero target. */
    method FindTarget(id: u32) returns (code: Code, status: Status, target: Target)
      requires k.fs.Wf()
      ensures code in {OK, FailedPrecondition}
      ensures code == OK ==>
          target == ZERO_TARGET || (target.id == ToU16(id) && TargetListed(k.fs, cfg.baseIqn, target))
      ensures code == OK && target == ZERO_TARGET ==> FreeTpgId(k.fs, cfg, ToU16(id))
      ensures code == OK ==> status == if target == ZERO_TARGET then Gone else Active
      ensures code == FailedPrecondition ==> k.flaky || BadTargets(k.fs, cfg.baseIqn)
      ensures BadTargets(k.fs, cfg.baseIqn) ==> code == FailedPrecondition
    {
      status, target := Invalid, ZERO_TARGET;
      var e, targets := Lio.ListTargets(k, cfg.baseIqn);
      if e != Ok { return FailedPrecondition, status, target; }
      status := Gone;
      for i := 0 to |targets|
        invariant forall t | t in targets[..i] :: t.id != ToU16(id)
      {
        assert targets[..i + 1] == targets[..i] + [targets[i]];
        if targets[i].id != ToU16(id) { continue; }
        return OK, Active, targets[i];
      }
      assert targets[..|targets|] == targets;
      FreeTpgIdFromScan(k.fs, cfg, targets, ToU16(id));
      code := OK;
    }

    /** Under the lock, with the target found before it. */
    method CommitDeletePool(id: u32, target: Target) returns (code: Code, ghost cause: Err)
      requires Valid()
      modifies `st, `pools, `file, k
      ensures Valid() && Maps() <= old(Maps())
      ensures DeletePoolOutcome(cfg, old(Now()), id, target, Now(), code, cause)
      ensures (!k.flaky ==> cause != Fault) && (!flakyDisk ==> code != Internal)
    {
      hide TpgOf, TargetCut, LegibleLuns, AloneInIqn, DropPool, Sound, Fs.Wf;
      var e := Lio.DeleteTarget(k, target);
      cause := e;
      if e != Ok { return Aborted, cause; }
      DropPoolIsSound(st, ToU16(id));
      ForgetPool(ToU16(id));
      var ok := SaveState();
      code := if ok then OK else Internal;
    }

    method DeletePool(id: u32) returns (res: PoolInfo, code: Code, ghost target: Target, ghost cause: Err)
      requires Valid()
      modifies `st, `pools, `file, k
      ensures Valid() && Maps() <= old(Maps()) && res.poolId == id
      ensures code in {FailedPrecondition, Aborted, OK, Internal}
      ensures code == FailedPrecondition ==> Now() == old(Now())
      ensures code == OK ==> res == PoolInfo(id, if target == ZERO_TARGET then Gone else Active, "", "")
      ensures code != FailedPrecondition ==> DeletePoolOutcome(cfg, old(Now()), id, target, Now(), code, cause)
      ensures code != FailedPrecondition ==>
          (target == ZERO_TARGET && FreeTpgId(old(k.fs), cfg, ToU16(id)))
          || (target.id == ToU16(id) && TargetListed(old(k.fs), cfg.baseIqn, target))
      ensures Healthy(cfg, old(Now())) && target != ZERO_TARGET && code == Aborted ==> cause == Fault
      ensures code == FailedPrecondition ==> k.flaky || BadTargets(old(k.fs), cfg.baseIqn)
      ensures BadTargets(old(k.fs), cfg.baseIqn) ==> code == FailedPrecondition
      ensures (!k.flaky ==> cause != Fault) && (!flakyDisk ==> code != Internal)
    {
      hide DeletePoolOutcome, Healthy, BadTargets;
      var status, t;
      code, status, t := FindTarget(id);
      target, cause := t, Ok;
      res := PoolInfo(id, status, "", "");
      if code != OK { return; }
      code, cause := CommitDeletePool(id, t);
      DeletePoolCodes(cfg, old(Now()), id, t, Now(), code, cause);
      if Healthy(cfg, old(Now())) && target != ZERO_TARGET {
        HealthyDeletePool(cfg, old(Now()), id, t, Now(), code, cause);
      }
    }

    // CreateVolume.

    /** Under the lock: the requested id, or the next one. */
    method ChooseVolumeId(inn: CreateVolumeRequest) returns (code: Code, id: u16, ghost backstores: seq<Backstore>)
      requires k.fs.Wf()
      ensures code in {OK, InvalidArgument, FailedPrecondition, ResourceExhausted}
      ensures code == OK <==> id != 0
      ensures inn.volumeId.Some? ==> id == ToU16(inn.volumeId.value) && code in {OK, InvalidArgument}
      ensures inn.volumeId.None? ==> code != InvalidArgument
      ensures inn.volumeId.None? && code in {OK, ResourceExhausted} ==> ScannedBackstores(k.fs, backstores)
      ensures inn.volumeId.None? && code == OK ==> NextAfter(backstores, maxLunId, id)
      ensures inn.volumeId.None? && code == ResourceExhausted ==> Exhausted(backstores, maxLunId)
      ensures code == FailedPrecondition ==> k.flaky || BadHbas(k.fs)
      ensures inn.volumeId.None? && BadHbas(k.fs) ==> code == FailedPrecondition
    {
      backstores := [];
      id := 0;
      if inn.volumeId.Some? {
        id := ToU16(inn.volumeId.value);
        if id == 0 { return InvalidArgument, id, backstores; }
      } else {
        var e, scanned := Lio.ListBackstores(k);
        backstores := scanned;
        if e != Ok { return FailedPrecondition, id, backstores; }
        id := NextVolumeId(scanned, maxLunId);
      }
      if id == 0 { return ResourceExhausted, id, backstores; }
      code := OK;
    }

    method FindVolumeConflict(volumes: map<u16, StateVolume>, id: u16) returns (found: bool)
      ensures found <==> exists v | v in volumes :: volumes[v].id == id || volumes[v].name == ""
    {
      found := false;
      var todo := volumes.Keys;
      while todo != {}
        invariant todo <= volumes.Keys
        invariant forall v | v in volumes && v !in todo :: !(volumes[v].id == id || volumes[v].name == "")
        decreases todo
      {
        var v :| v in todo;
        if volumes[v].id == id || volumes[v].name == "" { return true; }
        todo := todo - {v};
      }
    }

    /** The kernel's part of creating a volume: disk file, backstore, LUN. */
    method ExportNew(pool: StatePool, volume: StateVolume) returns (e: Err)
      requires k.fs.Wf()
      modifies k
      ensures k.fs.Wf()
      ensures VolumePut(cfg, old(k.fs), k.fs, pool, volume) && MadeInOrder(cfg, old(k.fs), k.fs, pool, volume)
      ensures e == Ok ==> volume.name != "" && VolumeMade(cfg, old(k.fs), k.fs, pool, volume)
      ensures e == NilDereference ==> volume.name == ""
      ensures !k.flaky ==>
          e == if volume.size <= 0 && FileOf(cfg, pool, volume) !in old(k.fs.files) then NotExist
               else if volume.name == "" then NilDereference else Ok
    {
      hide HbaName, TpgOf, TpgName, LunName, ImagePath, VolumePut, MadeInOrder, FileTouched, BackstorePut, LunPut,
        Fs.Wf;
      var backstore := Backstore(FILEIO, volume.id, volume.name, FileOf(cfg, pool, volume), 0);
      ghost var f0 := k.fs;
      var size;
      e, size := Lio.TouchDiskFile(k, backstore.filePath, volume.size);
      ghost var f1 := k.fs;
      VolumePutInSteps(cfg, f0, f1, f1, f1, pool, volume);
      if e != Ok { return e; }
      e := Lio.UpsertBackstore(k, backstore);
      ghost var f2 := k.fs;
      VolumePutInSteps(cfg, f0, f1, f2, f2, pool, volume);
      if e != Ok { return e; }
      e := Lio.UpsertLUN(k, TargetOf(cfg, pool), volume.id, backstore);
      VolumePutInSteps(cfg, f0, f1, f2, k.fs, pool, volume);
      StillMade(f1, f2, k.fs, LinkOf(cfg, pool, volume), DeviceOf(volume), FileOf(cfg, pool, volume));
    }

    /** A map object for a pool that has none. */
    method MakeMap(p: u16)
      requires Apart() && p in pools
      modifies `pools
      ensures Apart() && p in pools && pools[p].volumeMap != null && fresh(Maps() - old(Maps()))
      ensures pools == old(pools)[p := old(pools[p]).(volumeMap := pools[p].volumeMap)]
      ensures old(pools[p].volumeMap) != null ==> pools == old(pools)
      ensures old(pools[p].volumeMap) == null ==> fresh(pools[p].volumeMap) && pools[p].volumeMap.volumes == map[]
    {
      if pools[p].volumeMap == null {
        ghost var made := Maps();
        var volumes := new VolumeMap(map[]);
        assert volumes !in made;
        pools := pools[p := pools[p].(volumeMap := volumes)];
      }
      assert pools == old(pools)[p := old(pools[p]).(volumeMap := pools[p].volumeMap)];
    }

    /** Write the volume into the pool's map object, which is made first if it is missing: of all
        map objects of the registry only that one changes, and in it only that entry. */
    method PutIntoPool(p: u16, volume: StateVolume)
      requires Apart() && st == Snapshot() && p in pools
      modifies `st, `pools, Maps()
      ensures Apart() && st == Snapshot() == PutVolume(old(st), p, volume)
      ensures fresh(Maps() - old(Maps()))
      ensures forall m: VolumeMap | m in old(Maps()) && m != old(pools[p].volumeMap) :: m.volumes == old(m.volumes)
    {
      hide Apart;
      ghost var before := st;
      MakeMap(p);
      PutIntoMap(p, volume, before);
    }

    method PutIntoMap(p: u16, volume: StateVolume, ghost before: State)
      requires Apart() && p in pools && pools[p].volumeMap != null && Snapshot() == before
      modifies `st, pools[p].volumeMap
      ensures Apart() && st == Snapshot() == PutVolume(before, p, volume)
    {
      var m := pools[p].volumeMap;
      assert forall q | q in pools && q != p :: pools[q].volumeMap != m;
      m.volumes := m.volumes[volume.id := volume];
      st := PutVolume(before, p, volume);
      forall q | q in pools && q != p ensures VolumesOf(pools[q]) == before.pools[q].volumes {
      }
      assert Snapshot().pools == st.pools;
    }

    /** Delete from the map object of the pool stored under `p`; a missing one has nothing to delete. */
    method DropFromPool(p: u16, v: u16)
      requires Apart() && st == Snapshot()
      modifies `st, Maps()
      ensures Apart() && st == Snapshot() == DropVolume(old(st), p, v)
      ensures forall m: VolumeMap | m in Maps() && (p !in pools || m != pools[p].volumeMap) ::
                m.volumes == old(m.volumes)
    {
      ghost var before := st;
      if p in pools && pools[p].volumeMap != null {
        var m := pools[p].volumeMap;
        m.volumes := m.volumes - {v};
      }
      st := DropVolume(st, p, v);
      forall q | q in pools && q != p ensures VolumesOf(pools[q]) == before.pools[q].volumes {
      }
      assert Snapshot().pools == st.pools;
    }

    /** Disk file, backstore, LUN, and then the registry, once the id is known to be free in the pool. */
    method AddVolume(inn: CreateVolumeRequest, id: u16, p: u16) returns (res: VolumeInfo, code: Code)
      requires Valid() && id != 0 && id <= st.maxLunId && p in pools
      modifies `st, `pools, `file, k, Maps()
      ensures Valid() && fresh(Maps() - old(Maps()))
      ensures code in {Aborted, Crashed, OK, Internal}
      ensures VolumePut(cfg, old(k.fs), k.fs, old(st).pools[p], NewVolume(inn, id))
      ensures MadeInOrder(cfg, old(k.fs), k.fs, old(st).pools[p], NewVolume(inn, id))
      ensures code in {Aborted, Crashed} ==> st == old(st) && file == old(file)
      ensures code == Crashed ==> NewVolume(inn, id).name == ""
      ensures !k.flaky ==>
          (code == Aborted <==>
            && NewVolume(inn, id).size <= 0
            && FileOf(cfg, old(st).pools[p], NewVolume(inn, id)) !in old(k.fs.files))
      ensures !flakyDisk ==> code != Internal
      ensures code in {OK, Internal} ==>
          && NewVolume(inn, id).name != ""
          && VolumeMade(cfg, old(k.fs), k.fs, old(st).pools[p], NewVolume(inn, id))
          && st == PutVolume(old(st), p, NewVolume(inn, id))
          && Saved(old(file), st, file, code == OK)
          && res == VolumeInfo(inn.poolId, id, Active, NewVolume(inn, id).name, inn.volumeSize,
                               Iqn(cfg.baseIqn, old(st).pools[p].name), id)
    {
      hide VolumePut, MadeInOrder, VolumeMade, PutVolume, NewVolume, Sound, Fs.Wf, Iqn;
      NewVolumeIs(inn, id);
      var pool := StatePool(pools[p].id, pools[p].name, VolumesOf(pools[p]));
      assert pool == st.pools[p];
      var volume := NewVolume(inn, id);
      res := VolumeInfo(inn.poolId, id, Degraded, volume.name, inn.volumeSize, Iqn(cfg.baseIqn, pool.name), id);
      var e := ExportNew(pool, volume);
      if e == NilDereference { return res, Crashed; }
      if e != Ok { return res, Aborted; }
      res := res.(status := Active);
      PutVolumeKeepsSound(st, p, volume);
      PutIntoPool(p, volume);
      var ok := SaveState();
      code := if ok then OK else Internal;
    }

    /** The high-water mark moves before anything can be refused. */
    method RaiseMark(id: u16)
      requires Valid()
      modifies `st, `maxLunId
      ensures Valid() && st == Bump(old(st), id)
    {
      BumpIsSound(st, id);
      maxLunId := Max(maxLunId, id);
      st := Bump(st, id);
    }

    /** Under the lock, once there is an id. */
    method CommitVolume(inn: CreateVolumeRequest, id: u16) returns (res: VolumeInfo, code: Code)
      requires Valid() && id != 0 && inn.volumeSize >= 1
      modifies `st, `pools, `maxLunId, `file, k, Maps()
      ensures Valid() && fresh(Maps() - old(Maps()))
      ensures CreateVolumeOutcome(cfg, old(Now()), inn, id, Now(), res, code)
      ensures code !in {FailedPrecondition, ResourceExhausted}
      ensures !k.flaky && code == Aborted ==> Unallocatable(cfg, old(Now()), inn, id)
      ensures !flakyDisk ==> code != Internal
    {
      hide VolumePut, MadeInOrder, VolumeMade, PutVolume, NewVolume, Sound, Fs.Wf, Iqn, CreateVolumeOutcome,
        VolumeConflict, Saved;
      ghost var before := Now();
      res := VolumeInfo(inn.poolId, 0, Invalid, "", 0, "", 0);
      RaiseMark(id);
      var p := ToU16(inn.poolId);
      if p !in pools {
        UnaddedOutcome(cfg, before, inn, id, res, InvalidArgument);
        return res, InvalidArgument;
      }
      assert VolumesOf(pools[p]) == before.st.pools[p].volumes;
      var conflict := FindVolumeConflict(VolumesOf(pools[p]), id);
      ConflictIn(before.st.pools[p], id);
      if conflict {
        UnaddedOutcome(cfg, before, inn, id, res, AlreadyExists);
        return res, AlreadyExists;
      }
      res, code := AddVolume(inn, id, p);
      AddedOutcome(cfg, before, inn, id, Now(), res, code);
    }

    method CreateVolume(inn: CreateVolumeRequest)
      returns (res: VolumeInfo, code: Code, ghost id: u16, ghost backstores: seq<Backstore>)
      requires Valid()
      modifies `st, `pools, `maxLunId, `file, k, Maps()
      ensures Valid() && fresh(Maps() - old(Maps()))
      ensures CreateVolumeOutcome(cfg, old(Now()), inn, id, Now(), res, code)
      ensures inn.volumeSize >= 1 && id != 0 && inn.volumeId.Some? ==> id == ToU16(inn.volumeId.value)
      ensures inn.volumeSize >= 1 && id != 0 && inn.volumeId.None? ==>
          ScannedBackstores(old(k.fs), backstores) && NextAfter(backstores, old(st.maxLunId), id)
      ensures id != 0 ==> code !in {FailedPrecondition, ResourceExhausted}
      ensures inn.volumeSize < 1 ==> code == InvalidArgument
      ensures inn.volumeSize >= 1 && id == 0 ==>
          || (code == InvalidArgument && inn.volumeId.Some? && ToU16(inn.volumeId.value) == 0)
          || (code == FailedPrecondition && inn.volumeId.None? && (k.flaky || BadHbas(old(k.fs))))
          || (code == ResourceExhausted && inn.volumeId.None?
              && ScannedBackstores(old(k.fs), backstores) && Exhausted(backstores, old(st.maxLunId)))
      ensures inn.volumeSize >= 1 && inn.volumeId.None? && BadHbas(old(k.fs)) ==> code == FailedPrecondition
      ensures id != 0 && inn.volumeSize >= 1 && !k.flaky ==>
          (code == Aborted ==> Unallocatable(cfg, old(Now()), inn, id))
      ensures !flakyDisk ==> code != Internal
    {
      hide CreateVolumeOutcome, ScannedBackstores, NextAfter, Exhausted, BadHbas, Unallocatable, Sound;
      res := VolumeInfo(inn.poolId, 0, Invalid, "", 0, "", 0);
      id, backstores := 0, [];
      if inn.volumeSize < 1 {
        RefusedVolume(cfg, Now(), inn, res, InvalidArgument);
        return res, InvalidArgument, id, backstores;
      }
      var choice, chosen, scanned := ChooseVolumeId(inn);
      id, backstores := chosen, scanned;
      if choice != OK {
        RefusedVolume(cfg, Now(), inn, res, choice);
        return res, choice, id, backstores;
      }
      res, code := CommitVolume(inn, chosen);
    }

    // DeleteVolume.

    /** The loop over the targets: the id is compared in 32 bits, and the last match wins. */
    method FindTargetWhole(id: u32) returns (code: Code, target: Target)
      requires k.fs.Wf()
      ensures code in {OK, FailedPrecondition, InvalidArgument}
      ensures code == OK ==> target.id == id && TargetListed(k.fs, cfg.baseIqn, target)
      ensures code == InvalidArgument ==> id >= U16_LIMIT || FreeTpgId(k.fs, cfg, id)
      ensures code == FailedPrecondition ==> k.flaky || BadTargets(k.fs, cfg.baseIqn)
      ensures BadTargets(k.fs, cfg.baseIqn) ==> code == FailedPrecondition
    {
      target := ZERO_TARGET;
      var e, targets := Lio.ListTargets(k, cfg.baseIqn);
      if e != Ok { return FailedPrecondition, target; }
      var found := false;
      for i := 0 to |targets|
        invariant found ==> target in targets && target.id == id
        invariant !found ==> forall t | t in targets[..i] :: t.id != id
      {
        assert targets[..i + 1] == targets[..i] + [targets[i]];
        if targets[i].id == id {
          target, found := targets[i], true;
        }
      }
      assert targets[..|targets|] == targets;
      if found { return OK, target; }
      if id < U16_LIMIT { FreeTpgIdFromScan(k.fs, cfg, targets, id); }
      code := InvalidArgument;
    }

    /** Before the lock: the target, and the type of the first backstore with the volume's id.
        What is not exported in full is degraded, and deleted all the same. */
    method FindExport(inn: DeleteVolumeRequest) returns (code: Code, status: Status, target: Target, kind: string)
      requires k.fs.Wf()
      ensures code in {OK, FailedPrecondition, InvalidArgument}
      ensures code == OK ==> target.id == inn.poolId && TargetListed(k.fs, cfg.baseIqn, target)
      ensures code == OK ==> KindFound(k.fs, ToU16(inn.volumeId), kind)
      ensures code == OK ==> StatusTells(k.fs, target, ToU16(inn.volumeId), status)
      ensures code == InvalidArgument ==> inn.poolId >= U16_LIMIT || FreeTpgId(k.fs, cfg, inn.poolId)
      ensures code == FailedPrecondition ==> k.flaky || Unreadable(k.fs, cfg, target)
      ensures Unreadable(k.fs, cfg, target) && code != InvalidArgument ==> code == FailedPrecondition
    {
      hide BadTargets, BadLuns, BadHbas, TargetListed, FreeTpgId, KindFound, HasBackstore, Untyped, TpgOf,
        BackstoreListed, Covered, ListedDev, LunListed;
      status, kind := Active, FILEIO;
      code, target := FindTargetWhole(inn.poolId);
      if code != OK { return; }
      var le, luns := Lio.ListLUNs(k, target);
      if le != Ok { return FailedPrecondition, status, target, kind; }
      LunScan(k.fs, target, luns, ToU16(inn.volumeId));
      if ToU16(inn.volumeId) !in luns { status := Degraded; }
      var be, backstores := Lio.ListBackstores(k);
      if be != Ok { return FailedPrecondition, status, target, kind; }
      var hit;
      hit, kind := FirstKind(backstores, ToU16(inn.volumeId));
      if !hit { status := Degraded; }
      KindFromScan(k.fs, backstores, ToU16(inn.volumeId), hit, kind);
    }

    /** The kernel's part of deleting a volume: LUN, backstore, and the disk file if it is known. */
    method Unexport(target: Target, v: u16, backstore: Backstore) returns (e: Err)
      requires k.fs.Wf() && backstore.id == v
      modifies k
      ensures k.fs.Wf()
      ensures VolumeCut(old(k.fs), k.fs, LunOf(target, v), HbaName(backstore.kind, v))
      ensures e != Ok ==> k.fs.files == old(k.fs.files)
      ensures e == Ok ==> LunOf(target, v) !in k.fs.luns && HbaName(backstore.kind, v) !in k.fs.hbas
      ensures e == Ok ==>
          k.fs.files == if backstore.filePath == "" then old(k.fs.files) else old(k.fs.files) - {backstore.filePath}
      ensures e in {Ok, Busy, Fault}
      ensures !k.flaky ==> e != Fault
      ensures OnlyLinksFrom(old(k.fs), HbaName(backstore.kind, v), LunOf(target, v)) ==> e in {Ok, Fault}
      ensures e == Ok ==> OnlyLinksFrom(old(k.fs), HbaName(backstore.kind, v), LunOf(target, v))
    {
      hide HbaName, LunOf;
      e := Lio.DeleteLUN(k, target, v);
      if e != Ok { return e; }
      e := Lio.DeleteBackstore(k, backstore);
      if e != Ok { return e; }
      if backstore.filePath != "" {
        e := Lio.DeleteDiskFile(k, backstore.filePath);
      }
    }

    /** The backstore to delete, with name, disk file and size if the volume is registered. */
    method WhatToDelete(p: u16, v: u16, kind: string) returns (backstore: Backstore, iqn: string)
      requires st == Snapshot()
      ensures backstore.kind == kind && backstore.id == v && backstore.filePath == FileFor(cfg, st, p, v)
      ensures match Registered(st, p, v)
              case None => backstore.name == "" && backstore.fileSize == 0
              case Some(volume) => backstore.name == volume.name && backstore.fileSize == volume.size
      ensures iqn == TargetName(cfg, st, p)
    {
      hide FileOf, Iqn, FileFor;
      RegisteredFile(cfg, st, p, v);
      iqn := "";
      backstore := Backstore(kind, v, "", "", 0);
      if p in pools {
        var pool := StatePool(pools[p].id, pools[p].name, VolumesOf(pools[p]));
        assert pool == st.pools[p];
        if v in pool.volumes {
          var volume := pool.volumes[v];
          backstore := backstore.(name := volume.name, filePath := FileOf(cfg, pool, volume), fileSize := volume.size);
        }
        iqn := Iqn(cfg.baseIqn, pool.name);
      }
    }

    lemma SnapshotPools()
      requires st == Snapshot()
      ensures pools.Keys == st.pools.Keys && forall p | p in pools :: pools[p].id == st.pools[p].id
    {
    }

    /** The registry's part of deleting a volume. */
    method ForgetVolume(p: u16, v: u16) returns (ok: bool)
      requires Valid()
      modifies `st, `file, Maps()
      ensures Valid() && Maps() == old(Maps())
      ensures st == if p in old(st).pools then DropVolume(old(st), old(st).pools[p].id, v) else old(st)
      ensures Saved(old(file), st, file, ok) && (!flakyDisk ==> ok)
    {
      hide DropVolume, Sound, Fs.Wf, Snapshot, VolumesOf;
      SoundPools(st);
      SnapshotPools();
      if p in pools {
        DropVolumeIsSound(st, st.pools[p].id, v);
        DropFromPool(pools[p].id, v);
      }
      ok := SaveState();
    }

    /** Under the lock, with the target and the backstore's type found before it. */
    method CommitDeleteVolume(inn: DeleteVolumeRequest, target: Target, kind: string)
      returns (code: Code, iqn: string, ghost cause: Err)
      requires Valid()
      modifies `st, `file, k, Maps()
      ensures Valid() && Maps() == old(Maps())
      ensures DeleteVolumeOutcome(cfg, old(Now()), inn, target, kind, Now(), code, cause)
      ensures iqn == TargetName(cfg, old(st), ToU16(inn.poolId))
      ensures (!k.flaky ==> cause != Fault) && (!flakyDisk ==> code != Internal)
    {
      hide HbaName, LunOf, VolumeCut, FileFor, OnlyLinksFrom, DropVolume, Fs.Wf, Sound, DeleteVolumeOutcome,
        Saved, TargetName;
      ghost var before := Now();
      var p, v := ToU16(inn.poolId), ToU16(inn.volumeId);
      var backstore;
      backstore, iqn := WhatToDelete(p, v, kind);
      var e := Unexport(target, v, backstore);
      cause := e;
      if e != Ok {
        DeletedOutcome(cfg, before, inn, target, kind, Now(), Aborted, cause);
        return Aborted, iqn, cause;
      }
      var ok := ForgetVolume(p, v);
      code := if ok then OK else Internal;
      DeletedOutcome(cfg, before, inn, target, kind, Now(), code, cause);
    }

    method DeleteVolume(inn: DeleteVolumeRequest)
      returns (res: VolumeInfo, code: Code, ghost target: Target, ghost kind: string, ghost cause: Err)
      requires Valid()
      modifies `st, `file, k, Maps()
      ensures Valid() && Maps() == old(Maps())
      ensures code in {FailedPrecondition, InvalidArgument, Aborted, OK, Internal}
      ensures res == VolumeInfo(inn.poolId, inn.volumeId, res.status, "", 0, res.iqn, inn.volumeId)
      ensures code == OK ==> res.iqn == TargetName(cfg, old(st), ToU16(inn.poolId))
      ensures code == OK ==> StatusTells(old(k.fs), target, ToU16(inn.volumeId), res.status)
      ensures code in {FailedPrecondition, InvalidArgument} ==> Now() == old(Now())
      ensures code == InvalidArgument ==> inn.poolId >= U16_LIMIT || FreeTpgId(k.fs, cfg, inn.poolId)
      ensures code !in {FailedPrecondition, InvalidArgument} ==>
          DeleteVolumeOutcome(cfg, old(Now()), inn, target, kind, Now(), code, cause)
          && target.id == inn.poolId && TargetListed(old(k.fs), cfg.baseIqn, target)
          && KindFound(old(k.fs), ToU16(inn.volumeId), kind)
      ensures Healthy(cfg, old(Now())) && code == Aborted &&
              Registered(old(st), ToU16(inn.poolId), ToU16(inn.volumeId)).Some? ==>
          cause == Fault
      ensures code == FailedPrecondition ==> k.flaky || Unreadable(old(k.fs), cfg, target)
      ensures Unreadable(old(k.fs), cfg, target) && code != InvalidArgument ==> code == FailedPrecondition
      ensures (!k.flaky ==> cause != Fault) && (!flakyDisk ==> code != Internal)
    {
      hide DeleteVolumeOutcome, KindFound, TargetListed, Healthy, StatusTells, FreeTpgId, TargetName, Registered,
        Unreadable, Sound;
      var status, t, kd;
      code, status, t, kd := FindExport(inn);
      target, kind, cause := t, kd, Ok;
      res := VolumeInfo(inn.poolId, inn.volumeId, status, "", 0, "", inn.volumeId);
      if code != OK { return; }
      var iqn;
      code, iqn, cause := CommitDeleteVolume(inn, t, kd);
      DeleteVolumeCodes(cfg, old(Now()), inn, t, kd, Now(), code, cause);
      res := res.(iqn := iqn);
      if Healthy(cfg, old(Now())) && Registered(old(st), ToU16(inn.poolId), ToU16(inn.volumeId)).Some? {
        HealthyDeleteVolume(cfg, old(Now()), inn, t, kd, Now(), code, cause);
      }
    }

    // Reads.

    method ListPools() returns (infos: seq<PoolInfo>)
      requires st == Snapshot()
      ensures |infos| == |st.pools|
      ensures forall p | p in st.pools :: InfoOf(cfg, st.pools[p]) in infos
      ensures forall i | i in infos :: exists p :: p in st.pools && i == InfoOf(cfg, st.pools[p])
      ensures forall i | i in infos :: i.status == Active && i.iqn == cfg.baseIqn + ":" + i.poolName
    {
      infos := [];
      assert pools.Keys == st.pools.Keys;
      var todo := pools.Keys;
      while todo != {}
        invariant todo <= st.pools.Keys && |infos| + |todo| == |st.pools|
        invariant forall p | p in st.pools && p !in todo :: InfoOf(cfg, st.pools[p]) in infos
        invariant forall i | i in infos :: exists p :: p in st.pools && i == InfoOf(cfg, st.pools[p])
        decreases todo
      {
        var p :| p in todo;
        infos := infos + [PoolInfo(pools[p].id, Active, pools[p].name, Iqn(cfg.baseIqn, pools[p].name))];
        assert infos[|infos| - 1] == InfoOf(cfg, st.pools[p]);
        todo := todo - {p};
      }
    }

    /** By name the loop compares the name of the pool, so it finds any volume of a pool that
        has the name asked for, and nothing otherwise; and the pool id of a stored volume is
        never set, so the reply names pool 0. */
    method GetVolume(inn: GetVolumeRequest) returns (res: VolumeInfo, code: Code)
      requires Valid()
      ensures code in {OK, InvalidArgument, NotFound}
      ensures code == InvalidArgument <==>
          (inn.volumeId.None? && inn.volumeName.None?) || ToU16(inn.poolId) !in st.pools
      ensures code == NotFound && inn.volumeId.Some? ==>
          ToU16(inn.volumeId.value) !in st.pools[ToU16(inn.poolId)].volumes
      ensures code == OK ==> res.poolId == 0
      ensures code == OK ==>
          && ToU16(inn.poolId) in st.pools
          && InfoFrom(cfg, res, st.pools[ToU16(inn.poolId)], inn.volumeId)
      ensures inn.volumeId.None? && inn.volumeName.Some? && ToU16(inn.poolId) in st.pools ==>
          (code == OK <==>
            && st.pools[ToU16(inn.poolId)].name == inn.volumeName.value
            && st.pools[ToU16(inn.poolId)].volumes != map[])
    {
      res := VolumeInfo(inn.poolId, 0, Invalid, "", 0, "", 0);
      if inn.volumeId.None? && inn.volumeName.None? { return res, InvalidArgument; }
      var p := ToU16(inn.poolId);
      assert pools.Keys == st.pools.Keys;
      if p !in pools { return res, InvalidArgument; }
      var pool := StatePool(pools[p].id, pools[p].name, VolumesOf(pools[p]));
      assert pool == st.pools[p];
      var v: u16;
      if inn.volumeId.Some? {
        res := res.(volumeId := inn.volumeId.value);
        v := ToU16(inn.volumeId.value);
        if v !in pool.volumes { return res.(status := Gone), NotFound; }
      } else {
        res := res.(volumeName := inn.volumeName.value);
        var found := false;
        var todo := pool.volumes.Keys;
        v := 0;
        while todo != {} && !found
          invariant todo <= pool.volumes.Keys
          invariant found ==> v in pool.volumes && inn.volumeName.value == pool.name
          invariant !found && inn.volumeName.value == pool.name ==> todo == pool.volumes.Keys
          decreases todo, !found
        {
          var u :| u in todo;
          if inn.volumeName.value == pool.name {
            v, found := u, true;
          } else {
            todo := todo - {u};
          }
        }
        if !found { return res.(status := Gone), NotFound; }
      }
      var volume := pool.volumes[v];
      res := VolumeInfo(volume.poolId, volume.id, Active, volume.name, ToU64(volume.size), Iqn(cfg.baseIqn,
          pool.name), volume.id);
      code := OK;
    }
  }

  function InfoOf(c: ServerConfig, pool: StatePool): PoolInfo {
    PoolInfo(pool.id, Active, pool.name, Iqn(c.baseIqn, pool.name))
  }

  /** `info` describes a volume of the pool, the one with the requested id if there is one. */
  predicate InfoFrom(c: ServerConfig, info: VolumeInfo, pool: StatePool, volumeId: Option<u32>) {
    exists v | v in pool.volumes ::
      (volumeId.Some? ==> v == ToU16(volumeId.value))
      && info == VolumeInfo(pool.volumes[v].poolId, pool.volumes[v].id, Active, pool.volumes[v].name,
                            ToU64(pool.volumes[v].size), Iqn(c.baseIqn, pool.name), pool.volumes[v].id)
  }

  /** The size wraps to a negative number and the pool has no file of that name: there is nothing
      to stat and nothing is allocated. */
  predicate Unallocatable(c: ServerConfig, w: World, inn: CreateVolumeRequest, id: u16) {
    var p, volume := ToU16(inn.poolId), NewVolume(inn, id);
    p in w.st.pools && volume.size <= 0 && FileOf(c, w.st.pools[p], volume) !in w.fs.files
  }

  // What the scans establish.

  /** The scan covers every backstore directory that has a data directory. */
  ghost predicate ScannedBackstores(fs: Fs, backstores: seq<Backstore>) {
    && (forall d | ListedDev(fs, d) :: Covered(fs, backstores, d.hba))
    && (forall b | b in backstores :: BackstoreListed(fs, b))
  }

  /** Some listed backstore of a type has the id. */
  ghost predicate HasBackstore(fs: Fs, id: u16) {
    exists d :: ListedDev(fs, d) && ParseHba(d.hba).id == id && ParseHba(d.hba).kind != ""
  }

  /** Some listed backstore directory with the id starts with the underscore. */
  ghost predicate Untyped(fs: Fs, id: u16) {
    exists d :: ListedDev(fs, d) && ParseHba(d.hba) == Hba("", id)
  }

  ghost predicate Exported(fs: Fs, t: Target, v: u16) {
    LunListed(fs, TpgOf(t), v) && HasBackstore(fs, v)
  }

  /** Active means exported, and degraded that it is not; but a directory without a type may
      be found first, and then it counts as none. */
  ghost predicate StatusTells(fs: Fs, t: Target, v: u16, status: Status) {
    && status in {Active, Degraded}
    && (status == Active ==> Exported(fs, t, v))
    && (status == Degraded && !Untyped(fs, v) ==> !Exported(fs, t, v))
  }

  /** One of the three listings that a delete starts with cannot be made. */
  ghost predicate Unreadable(fs: Fs, c: ServerConfig, t: Target) {
    BadTargets(fs, c.baseIqn) || BadLuns(fs, TpgOf(t)) || BadHbas(fs)
  }

  lemma LunScan(fs: Fs, t: Target, luns: seq<u16>, v: u16)
    requires forall l | l in fs.luns && l.tpg == TpgOf(t) && ParseLun(l.lun).Num? :: ParseLun(l.lun).id in luns
    requires forall n | n in luns :: LunListed(fs, TpgOf(t), n)
    ensures v in luns <==> LunListed(fs, TpgOf(t), v)
  {
  }

  /** What the allocator promises of a scan. */
  predicate NextAfter(backstores: seq<Backstore>, maxLunId: u16, id: u16) {
    if backstores == [] then id == 1
    else
      && id > maxLunId && (forall b | b in backstores :: id > b.id)
      && (id == maxLunId + 1 || exists b | b in backstores :: id == b.id + 1)
  }

  /** No id is above everything. */
  predicate Exhausted(backstores: seq<Backstore>, maxLunId: u16) {
    backstores != [] && (maxLunId == 65535 || exists b | b in backstores :: b.id == 65535)
  }

  /** There is a next id exactly when the ids are not exhausted, and only one. */
  lemma NextIdIffNotExhausted(backstores: seq<Backstore>, maxLunId: u16)
    ensures (exists id :: NextAfter(backstores, maxLunId, id)) <==> !Exhausted(backstores, maxLunId)
    ensures forall i, j | NextAfter(backstores, maxLunId, i) && NextAfter(backstores, maxLunId, j) :: i == j
  {
    if backstores == [] {
      assert NextAfter(backstores, maxLunId, 1);
    } else if !Exhausted(backstores, maxLunId) {
      var top := TopId(backstores);
      assert NextAfter(backstores, maxLunId, Max(maxLunId, top) + 1);
    }
  }

  lemma TopId(backstores: seq<Backstore>) returns (top: u16)
    requires backstores != []
    ensures (exists b :: b in backstores && b.id == top) && forall b | b in backstores :: b.id <= top
  {
    top := backstores[0].id;
    if |backstores| > 1 {
      var rest := TopId(backstores[1..]);
      top := Max(top, rest);
    }
  }

  /** `kind` is the type of some listed backstore with the id, or the default when there is
      none, or none with a type. */
  ghost predicate KindFound(fs: Fs, id: u16, kind: string) {
    || (kind != "" && exists d :: ListedDev(fs, d) && ParseHba(d.hba) == Hba(kind, id))
    || (kind == FILEIO && (Untyped(fs, id) || forall d | ListedDev(fs, d) :: ParseHba(d.hba).id != id))
  }

  /** The type of the first backstore with the id; an empty one is replaced by the default. */
  method FirstKind(backstores: seq<Backstore>, id: u16) returns (hit: bool, kind: string)
    ensures hit ==> kind != "" && exists b :: b in backstores && b.id == id && b.kind == kind
    ensures !hit ==> kind == FILEIO
    ensures !hit ==> (exists b :: b in backstores && b.id == id && b.kind == "") || forall b | b in backstores ::
            b.id != id
  {
    for i := 0 to |backstores|
      invariant forall b | b in backstores[..i] :: b.id != id
    {
      assert backstores[..i + 1] == backstores[..i] + [backstores[i]];
      if backstores[i].id == id {
        if backstores[i].kind == "" { return false, FILEIO; }
        return true, backstores[i].kind;
      }
    }
    assert backstores[..|backstores|] == backstores;
    return false, FILEIO;
  }

  lemma KindFromScan(fs: Fs, backstores: seq<Backstore>, id: u16, hit: bool, kind: string)
    requires ScannedBackstores(fs, backstores)
    requires hit ==> kind != "" && exists b :: b in backstores && b.id == id && b.kind == kind
    requires !hit ==> kind == FILEIO
    requires !hit ==> (exists b :: b in backstores && b.id == id && b.kind == "") || forall b | b in backstores ::
             b.id != id
    ensures KindFound(fs, id, kind)
    ensures hit ==> HasBackstore(fs, id)
    ensures !hit && !Untyped(fs, id) ==> !HasBackstore(fs, id)
  {
    hide ParseHba, ScannedBackstores, HasBackstore, Untyped, ListedDev;
    if hit {
      var b :| b in backstores && b.id == id && b.kind == kind;
      ScannedKind(fs, backstores, b);
      HasSome(fs, id, kind);
    } else if b :| b in backstores && b.id == id && b.kind == "" {
      ScannedKind(fs, backstores, b);
      HasUntyped(fs, id);
    } else {
      NoneScanned(fs, backstores, id);
    }
  }

  lemma ScannedKind(fs: Fs, backstores: seq<Backstore>, b: Backstore)
    requires ScannedBackstores(fs, backstores) && b in backstores
    ensures exists d :: ListedDev(fs, d) && ParseHba(d.hba) == Hba(b.kind, b.id)
  {
    hide ParseHba;
    assert BackstoreListed(fs, b);
  }

  lemma HasSome(fs: Fs, id: u16, kind: string)
    requires kind != "" && exists d :: ListedDev(fs, d) && ParseHba(d.hba) == Hba(kind, id)
    ensures HasBackstore(fs, id)
  {
    hide ParseHba, ListedDev;
  }

  lemma HasUntyped(fs: Fs, id: u16)
    requires exists d :: ListedDev(fs, d) && ParseHba(d.hba) == Hba("", id)
    ensures Untyped(fs, id)
  {
    hide ParseHba, ListedDev;
  }

  lemma NoneScanned(fs: Fs, backstores: seq<Backstore>, id: u16)
    requires ScannedBackstores(fs, backstores) && forall b | b in backstores :: b.id != id
    ensures forall d | ListedDev(fs, d) :: ParseHba(d.hba).id != id
    ensures !HasBackstore(fs, id)
  {
    hide ParseHba;
    forall d | ListedDev(fs, d) ensures ParseHba(d.hba).id != id {
      assert Covered(fs, backstores, d.hba);
    }
  }

  lemma TakenIffListed(fs: Fs, c: ServerConfig, targets: seq<Target>, id: u16)
    requires forall p | Listed(fs, c.baseIqn, p) :: TargetAt(c.baseIqn, p) in targets
    requires forall t | t in targets :: TargetListed(fs, c.baseIqn, t)
    ensures Taken(targets, id) <==> !FreeTpgId(fs, c, id)
  {
    hide ParseTpg, Ours, PoolNameOf;
    if t :| t in targets && t.id == id { assert TargetListed(fs, c.baseIqn, t); }
    if p :| p in fs.tpgs && Ours(c.baseIqn, p.iqn) && ParseTpg(p.tpg) == Num(id) { assert Listed(fs, c.baseIqn, p); }
  }

  lemma FreeTpgIdFromScan(fs: Fs, c: ServerConfig, targets: seq<Target>, id: u16)
    requires forall p | Listed(fs, c.baseIqn, p) :: TargetAt(c.baseIqn, p) in targets
    requires forall t | t in targets :: t.id != id
    ensures FreeTpgId(fs, c, id)
  {
    forall p | p in fs.tpgs && Ours(c.baseIqn, p.iqn) ensures ParseTpg(p.tpg) != Num(id) {
      if ParseTpg(p.tpg) == Num(id) {
        assert Listed(fs, c.baseIqn, p);
      }
    }
  }

  /** A request refused for lack of an id changes nothing. */
  lemma RefusedVolume(c: ServerConfig, w: World, inn: CreateVolumeRequest, res: VolumeInfo, code: Code)
    requires w.fs.Wf() && code in {InvalidArgument, FailedPrecondition, ResourceExhausted}
    ensures CreateVolumeOutcome(c, w, inn, 0, w, res, code)
  {
    hide VolumePut, MadeInOrder, VolumeMade, PutVolume, NewVolume, VolumeConflict, Fs.Wf;
  }

  lemma StillMade(f1: Fs, f2: Fs, f3: Fs, x: LinkPath, d: DevPath, f: string)
    requires BackstorePut(f1, f2, d, f, 0) && LunPut(f2, f3, x, d)
    ensures f3.files == f1.files && f3.devs == f2.devs
  {
  }

  lemma BumpIsSound(s: State, id: u16)
    requires Sound(s)
    ensures Sound(Bump(s, id))
  {
  }

  lemma NewVolumeIs(inn: CreateVolumeRequest, id: u16)
    ensures NewVolume(inn, id).id == id && NewVolume(inn, id).poolId == 0
  {
  }

  lemma RefusedPool(c: ServerConfig, w: World, inn: CreatePoolRequest, id: u16, res: PoolInfo)
    requires w.fs.Wf() && PoolConflict(w.st, inn, id)
    ensures CreatePoolOutcome(c, w, inn, id, w, res, AlreadyExists)
  {
    hide TpgOf, TargetPut, PoolConflict, NewPool, PutPool, Fs.Wf, Saved;
  }

  lemma AddedPool(c: ServerConfig, w: World, inn: CreatePoolRequest, id: u16, w': World, res: PoolInfo, code: Code)
    requires w'.fs.Wf() && !PoolConflict(w.st, inn, id) && code in {Aborted, OK, Internal}
    requires var pool := NewPool(inn, id);
      && TargetPut(w.fs, w'.fs, TpgOf(TargetOf(c, pool)))
      && (code == Aborted ==> w'.st == w.st && w'.file == w.file)
      && (code in {OK, Internal} ==>
            && TpgOf(TargetOf(c, pool)) in w'.fs.tpgs && w'.fs.tpgs[TpgOf(TargetOf(c, pool))] == EXPORTED
            && w'.st == PutPool(w.st, pool)
            && Saved(w.file, w'.st, w'.file, code == OK)
            && res == PoolInfo(id, Active, pool.name, Iqn(c.baseIqn, pool.name)))
    ensures CreatePoolOutcome(c, w, inn, id, w', res, code)
  {
    hide TpgOf, TargetPut, PoolConflict, NewPool, PutPool, Fs.Wf, Saved, Iqn;
  }

  lemma PutPoolIsSound(s: State, inn: CreatePoolRequest, id: u16)
    requires Sound(s) && id != 0
    ensures Sound(PutPool(s, NewPool(inn, id)))
  {
  }

  lemma DropPoolIsSound(s: State, id: u16)
    requires Sound(s)
    ensures Sound(DropPool(s, id))
  {
  }

  lemma PutVolumeKeepsSound(s: State, p: u16, volume: StateVolume)
    requires Sound(s) && p in s.pools && volume.id != 0 && volume.poolId == 0 && volume.id <= s.maxLunId
    ensures Sound(PutVolume(s, p, volume))
  {
  }

  lemma ConflictIn(pool: StatePool, id: u16)
    ensures VolumeConflict(pool, id) <==> exists v | v in pool.volumes ::
            pool.volumes[v].id == id || pool.volumes[v].name == ""
  {
  }

  /** A request refused after it got its id has only moved the high-water mark. */
  lemma UnaddedOutcome(c: ServerConfig, w: World, inn: CreateVolumeRequest, id: u16, res: VolumeInfo, code: Code)
    requires w.fs.Wf() && id != 0 && inn.volumeSize >= 1
    requires var p := ToU16(inn.poolId);
             || (code == InvalidArgument && p !in w.st.pools)
             || (code == AlreadyExists && p in w.st.pools && VolumeConflict(w.st.pools[p], id))
    ensures CreateVolumeOutcome(c, w, inn, id, w.(st := Bump(w.st, id)), res, code)
  {
    hide VolumePut, MadeInOrder, VolumeMade, PutVolume, NewVolume, VolumeConflict, Fs.Wf;
  }

  lemma AddedOutcome(
      c: ServerConfig, w: World, inn: CreateVolumeRequest, id: u16, w': World, res: VolumeInfo, code: Code)
    requires id != 0 && inn.volumeSize >= 1 && code in {Aborted, Crashed, OK, Internal} && w'.fs.Wf()
    requires var p := ToU16(inn.poolId);
      && p in w.st.pools && !VolumeConflict(w.st.pools[p], id)
      && VolumePut(c, w.fs, w'.fs, w.st.pools[p], NewVolume(inn, id))
      && MadeInOrder(c, w.fs, w'.fs, w.st.pools[p], NewVolume(inn, id))
      && (code in {Aborted, Crashed} ==> w'.st == Bump(w.st, id) && w'.file == w.file)
      && (code == Crashed ==> NewVolume(inn, id).name == "")
      && (code in {OK, Internal} ==>
            && NewVolume(inn, id).name != ""
            && VolumeMade(c, w.fs, w'.fs, w.st.pools[p], NewVolume(inn, id))
            && w'.st == PutVolume(Bump(w.st, id), p, NewVolume(inn, id))
            && Saved(w.file, w'.st, w'.file, code == OK)
            && res == VolumeInfo(inn.poolId, id, Active, NewVolume(inn, id).name, inn.volumeSize,
                                 Iqn(c.baseIqn, w.st.pools[p].name), id))
    ensures CreateVolumeOutcome(c, w, inn, id, w', res, code)
  {
    hide VolumePut, MadeInOrder, VolumeMade, PutVolume, NewVolume, VolumeConflict, Fs.Wf, Saved, Iqn;
  }

  lemma SoundPools(s: State)
    requires Sound(s)
    ensures forall p | p in s.pools :: s.pools[p].id == p
  {
  }

  /** The disk file of a registered volume, empty for none. */
  function FileFor(c: ServerConfig, s: State, p: u16, v: u16): string {
    match Registered(s, p, v)
    case None => ""
    case Some(volume) => if p in s.pools then FileOf(c, s.pools[p], volume) else ""
  }

  lemma RegisteredFile(c: ServerConfig, s: State, p: u16, v: u16)
    ensures FileFor(c, s, p, v) ==
            if p in s.pools && v in s.pools[p].volumes then FileOf(c, s.pools[p], s.pools[p].volumes[v]) else ""
  {
    hide ImagePath;
  }

  lemma DeletedOutcome(
      c: ServerConfig, w: World, inn: DeleteVolumeRequest, t: Target, kind: string, w': World, code: Code, cause: Err)
    requires w'.fs.Wf() && code in {Aborted, OK, Internal} && cause in {Ok, Busy, Fault} && (code == Aborted <==>
             cause != Ok)
    requires var p, v := ToU16(inn.poolId), ToU16(inn.volumeId);
             var l, hba, file := LunOf(t, v), HbaName(kind, v), FileFor(c, w.st, p, v);
      && VolumeCut(w.fs, w'.fs, l, hba)
      && (OnlyLinksFrom(w.fs, hba, l) ==> cause in {Ok, Fault})
      && (cause == Ok ==> OnlyLinksFrom(w.fs, hba, l))
      && (code == Aborted ==> w'.fs.files == w.fs.files && w'.st == w.st && w'.file == w.file)
      && (code != Aborted ==>
            && l !in w'.fs.luns && hba !in w'.fs.hbas
            && w'.fs.files == (if file == "" then w.fs.files else w.fs.files - {file})
            && w'.st == (if p in w.st.pools then DropVolume(w.st, w.st.pools[p].id, v) else w.st)
            && Saved(w.file, w'.st, w'.file, code == OK))
    ensures DeleteVolumeOutcome(c, w, inn, t, kind, w', code, cause)
  {
    hide LunOf, HbaName, VolumeCut, OnlyLinksFrom, DropVolume, Saved, Fs.Wf;
  }

  lemma DropVolumeIsSound(s: State, p: u16, v: u16)
    requires Sound(s)
    ensures Sound(DropVolume(s, p, v))
  {
  }

  /** The name of the pool's target, empty when there is no such pool. */
  function TargetName(c: ServerConfig, s: State, p: u16): string {
    if p in s.pools then Iqn(c.baseIqn, s.pools[p].name) else ""
  }

  /** On a healthy server only a fault aborts the deletion of a listed target. */
  lemma HealthyDeletePool(c: ServerConfig, w: World, id: u32, t: Target, w': World, code: Code, cause: Err)
    requires Healthy(c, w) && TargetListed(w.fs, c.baseIqn, t)
    requires DeletePoolOutcome(c, w, id, t, w', code, cause)
    ensures code == Aborted ==> cause == Fault
  {
    hide Healthy, TargetListed, TargetCut, TpgOf, LegibleLuns, AloneInIqn, Fs.Wf, Saved;
    ListedTargetLegal(c, w, t);
  }

  /** On a healthy server the target with a pool's id is the pool's. */
  lemma TargetOfPool(c: ServerConfig, w: World, p: u16, t: Target)
    requires Healthy(c, w) && p in w.st.pools && TargetListed(w.fs, c.baseIqn, t) && t.id == p
    ensures TpgOf(t) == PoolTpg(c, w.st, p)
  {
    hide TidyLuns, TidyLinks, TidyDevs, ClearDevs, ClearLinks, VolKeys, TpgName, Fs.Wf;
    var q :| Listed(w.fs, c.baseIqn, q) && t == TargetAt(c.baseIqn, q);
    assert CanonTpg(q.tpg);
    PoolKeyed(c, w.st, p);
    assert q.tpg == PoolTpg(c, w.st, p).tpg;
  }

  lemma PoolKeyed(c: ServerConfig, s: State, p: u16)
    requires WellFormed(c, s) && p in s.pools
    ensures PoolTpg(c, s, p).tpg == TpgName(p)
  {
  }

  /** On a healthy server only a fault aborts the deletion of a registered volume. */
  lemma HealthyDeleteVolume(
      c: ServerConfig, w: World, inn: DeleteVolumeRequest, t: Target, kind: string, w': World, code: Code, cause: Err)
    requires Healthy(c, w) && Registered(w.st, ToU16(inn.poolId), ToU16(inn.volumeId)).Some?
    requires t.id == inn.poolId && TargetListed(w.fs, c.baseIqn, t) && KindFound(w.fs, ToU16(inn.volumeId), kind)
    requires DeleteVolumeOutcome(c, w, inn, t, kind, w', code, cause)
    ensures code == Aborted ==> cause == Fault
  {
    hide Healthy, TargetListed, KindFound, VolumeCut, TpgOf, HbaName, OnlyLinksFrom, Fs.Wf, Saved, FileOf,
      DropVolume, LunOf;
    var p, v := ToU16(inn.poolId), ToU16(inn.volumeId);
    TargetOfPool(c, w, p, t);
    OwnLinksOnly(c, w, VolKey(p, v), t, kind);
  }

  /** Whatever type of backstore is found for a registered volume, only its own LUN links there. */
  lemma OwnLinksOnly(c: ServerConfig, w: World, k: VolKey, t: Target, kind: string)
    requires Healthy(c, w) && k.pool in w.st.pools && k.vol in w.st.pools[k.pool].volumes
    requires TpgOf(t) == PoolTpg(c, w.st, k.pool) && KindFound(w.fs, k.vol, kind)
    ensures OnlyLinksFrom(w.fs, HbaName(kind, k.vol), LunOf(t, k.vol))
  {
    hide WellFormed, Tidy, Clear, OnlyLinksFrom, HbaName, TpgOf, LunName;
    assert k in VolKeys(w.st);
    WellFormedParts(c, w.st);
    if kind == FILEIO {
      OnlyItsLunLinks(c, w, k);
      VolumeIds(w.st, k);
    } else {
      var d :| ListedDev(w.fs, d) && ParseHba(d.hba) == Hba(kind, k.vol);
      NothingLinksElsewhere(c.baseIqn, w.fs, d, kind, k.vol, LunOf(t, k.vol));
    }
  }

  lemma OutcomeCodes(c: ServerConfig, w: World, inn: CreatePoolRequest, id: u16, w': World, res: PoolInfo, code: Code)
    requires CreatePoolOutcome(c, w, inn, id, w', res, code)
    ensures code in {AlreadyExists, Aborted, OK, Internal}
  {
  }

  lemma DeletePoolCodes(c: ServerConfig, w: World, id: u32, t: Target, w': World, code: Code, cause: Err)
    requires DeletePoolOutcome(c, w, id, t, w', code, cause)
    ensures code in {Aborted, OK, Internal}
  {
  }

  lemma DeleteVolumeCodes(
      c: ServerConfig, w: World, inn: DeleteVolumeRequest, t: Target, kind: string, w': World, code: Code, cause: Err)
    requires DeleteVolumeOutcome(c, w, inn, t, kind, w', code, cause)
    ensures code in {Aborted, OK, Internal}
  {
  }
}
