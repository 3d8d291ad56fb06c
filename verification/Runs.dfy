/** Whole runs of the server: calls, background reconciles and restarts in the order in which
    they take the lock.  What a call found before it took the lock is part of its event and may
    be as stale as it likes. */
module Runs {
  import opened Types
  import opened Names
  import opened KernelTree
  import opened Frames
  import opened Convergence
  import opened Registry
  import opened Outcomes
  import opened Recovery
  import opened SigmaServer
  import Guarantees
  import Reconciler

  /** `id`, `backstores`, `target` and `kind` are what the call had chosen or found when it
      got to its commit. */
  datatype Event =
    | Ticked(ok: bool)
    | PoolCreated(newPool: CreatePoolRequest, id: u16, pool: PoolInfo, code: Code)
    | PoolDeleted(poolId: u32, target: Target, code: Code, cause: Err)
    | VolumeCreated(newVolume: CreateVolumeRequest, id: u16, backstores: seq<Backstore>, volume: VolumeInfo, code: Code)
    | VolumeDeleted(oldVolume: DeleteVolumeRequest, target: Target, kind: string, code: Code, cause: Err)
    | Restarted(rebooted: bool)

  function Loaded(file: StateFile): State {
    if file.Holds? then file.state else EMPTY_STATE
  }

  /** Reconciling, and complete at the end if `ok`. */
  ghost predicate Reconciled(c: ServerConfig, a: Fs, b: Fs, s: State, ok: bool) {
    && b.Wf() && Reconciler.KeepsLive(a, b, s.pools)
    && Reconciler.Spares(a, b, c.baseIqn, Reconciler.VolumeFiles(c, s))
    && (WellFormed(c, s) && Managed(a, GoalOf(c, s)) ==>
          && Reconciler.Progress(a, b, GoalOf(c, s))
          && (ok ==> Converged(b, GoalOf(c, s)) && Reconciler.SerialsSet(a, b, GoalOf(c, s))))
  }

  /** A reboot empties configfs and keeps the disk files. */
  function Rebooted(fs: Fs): Fs {
    Fs(false, {}, map[], {}, {}, map[], {}, map[], fs.files, fs.statFaults)
  }

  /** A restart loads the file, reconciles and saves; it may be the machine that starts again.
      Attempts that fail before they tear the file are part of the reconciling. */
  ghost predicate Step(c: ServerConfig, w: World, e: Event, w': World) {
    match e
    case Ticked(ok) =>
      && w'.st == w.st && w'.file == w.file
      && Reconciled(c, w.fs, w'.fs, w.st, ok)
      && (ok ==> !Reconciler.DeadBesideLive(w.fs, c.baseIqn, w.st.pools))
    case PoolCreated(inn, id, res, code) => id != 0 && CreatePoolOutcome(c, w, inn, id, w', res, code)
    case PoolDeleted(id, t, code, cause) => DeletePoolOutcome(c, w, id, t, w', code, cause)
    case VolumeCreated(inn, id, backstores, res, code) =>
      && CreateVolumeOutcome(c, w, inn, id, w', res, code)
      && (inn.volumeSize >= 1 && id != 0 && inn.volumeId.None? ==>
            ScannedBackstores(w.fs, backstores) && NextAfter(backstores, w.st.maxLunId, id))
    case VolumeDeleted(inn, t, kind, code, cause) => DeleteVolumeOutcome(c, w, inn, t, kind, w', code, cause)
    case Restarted(rebooted) =>
      && !w.file.Torn?
      && w'.st == Loaded(w.file) && w'.file == Holds(w'.st)
      && Reconciled(c, if rebooted then Rebooted(w.fs) else w.fs, w'.fs, w'.st, true)
  }

  /** A call that crashes ends the process, so only a restart can follow it. */
  predicate Crash(e: Event) {
    e.VolumeCreated? && e.code == Crashed
  }

  ghost predicate Run(c: ServerConfig, ws: seq<World>, es: seq<Event>) {
    && |ws| == |es| + 1
    && (forall i | 0 <= i < |es| :: Step(c, ws[i], es[i], ws[i + 1]))
    && (forall i | 0 < i < |es| && Crash(es[i - 1]) :: es[i].Restarted?)
  }

  // The sequential registry.

  datatype Entry = Entry(name: string, size: int)

  /** Pools by name, volumes by pool and id, and the highest volume id ever given out. */
  datatype Reg = Reg(pools: map<u16, string>, volumes: map<VolKey, Entry>, high: u16)

  datatype Op =
    | Skip
    | AddPool(id: u16, name: string)
    | RemovePool(id: u16)
    | Raise(id: u16)
    | AddVolume(key: VolKey, entry: Entry)
    | RemoveVolume(key: VolKey)

  /** A registry never overwrites: what is added is new, and a volume's pool is there. */
  predicate Enabled(r: Reg, op: Op) {
    match op
    case AddPool(id, _) => id != 0 && id !in r.pools
    case AddVolume(k, _) => k.vol != 0 && k.pool in r.pools && k !in r.volumes
    case _ => true
  }

  function Apply(r: Reg, op: Op): Reg {
    match op
    case Skip => r
    case AddPool(id, name) => r.(pools := r.pools[id := name])
    case RemovePool(id) => r.(pools := r.pools - {id}, volumes := map k | k in r.volumes && k.pool != id ::
        r.volumes[k])
    case Raise(id) => r.(high := Max(r.high, id))
    case AddVolume(k, entry) => r.(volumes := r.volumes[k := entry], high := Max(r.high, k.vol))
    case RemoveVolume(k) => r.(volumes := r.volumes - {k})
  }

  /** What a call does to the registry, told from its request and its reply alone. */
  function OpOf(e: Event): Op {
    match e
    case Ticked(_) => Skip
    case PoolCreated(inn, id, _, code) => if code in {OK, Internal} then AddPool(id, NewPool(inn, id).name) else Skip
    case PoolDeleted(id, _, code, _) => if code in {OK, Internal} then RemovePool(ToU16(id)) else Skip
    case VolumeCreated(inn, id, _, _, code) =>
      if inn.volumeSize < 1 || id == 0 || code in {FailedPrecondition, ResourceExhausted} then Skip
      else if code in {OK, Internal} then AddVolume(VolKey(ToU16(inn.poolId), id), EntryOf(NewVolume(inn, id)))
      else Raise(id)
    case VolumeDeleted(inn, _, _, code, _) =>
      if code in {OK, Internal} then RemoveVolume(VolKey(ToU16(inn.poolId), ToU16(inn.volumeId))) else Skip
    case Restarted(_) => Skip
  }

  function EntryOf(volume: StateVolume): Entry {
    Entry(volume.name, volume.size)
  }

  ghost function RegOf(s: State): Reg {
    Reg(map p | p in s.pools :: s.pools[p].name,
        map k | k in VolKeys(s) :: EntryOf(VolOf(s, k)),
        s.maxLunId)
  }

  /** The sequential registry run over the events. */
  function Replay(r: Reg, es: seq<Event>): Reg {
    if es == [] then r else Apply(Replay(r, es[..|es| - 1]), OpOf(es[|es| - 1]))
  }

  lemma PutPoolRefines(s: State, pool: StatePool)
    requires pool.id !in s.pools && pool.volumes == map[]
    ensures RegOf(PutPool(s, pool)) == Apply(RegOf(s), AddPool(pool.id, pool.name))
  {
    NewKeysOfPool(s, pool);
    var t := PutPool(s, pool);
    assert RegOf(t).pools == RegOf(s).pools[pool.id := pool.name];
    assert RegOf(t).volumes == RegOf(s).volumes;
  }

  lemma DropPoolRefines(s: State, id: u16)
    ensures RegOf(DropPool(s, id)) == Apply(RegOf(s), RemovePool(id))
  {
    var r, q := RegOf(DropPool(s, id)), Apply(RegOf(s), RemovePool(id));
    assert r.pools == q.pools;
    forall k ensures k in VolKeys(DropPool(s, id)) <==> k in VolKeys(s) && k.pool != id {
    }
    assert r.volumes == q.volumes;
  }

  lemma BumpRefines(s: State, id: u16)
    ensures RegOf(Bump(s, id)) == Apply(RegOf(s), Raise(id))
  {
    assert VolKeys(Bump(s, id)) == VolKeys(s);
    assert RegOf(Bump(s, id)).volumes == RegOf(s).volumes;
  }

  lemma PutVolumeRefines(s: State, p: u16, volume: StateVolume)
    requires p in s.pools && volume.id !in s.pools[p].volumes
    ensures RegOf(PutVolume(Bump(s, volume.id), p, volume)) == Apply(RegOf(s), AddVolume(VolKey(p, volume.id),
            EntryOf(volume)))
  {
    hide VolKeys;
    var t := Bump(s, volume.id);
    var u := PutVolume(t, p, volume);
    BumpKeys(s, volume.id);
    NewKeysOfVolume(t, p, volume);
    SubStateKeys(t, u);
    var r, q := RegOf(u), Apply(RegOf(s), AddVolume(VolKey(p, volume.id), EntryOf(volume)));
    assert r.pools == q.pools;
    assert r.volumes == q.volumes;
  }

  lemma KeysLessVolume(s: State, p: u16, v: u16)
    ensures VolKeys(DropVolume(s, p, v)) == VolKeys(s) - {VolKey(p, v)}
    ensures DropVolume(s, p, v).pools.Keys == s.pools.Keys
    ensures forall q | q in s.pools :: DropVolume(s, p, v).pools[q].name == s.pools[q].name
  {
    var t := DropVolume(s, p, v);
    forall k ensures k in VolKeys(t) <==> k in VolKeys(s) && k != VolKey(p, v) {
      if k in VolKeys(t) { assert k.pool in t.pools && k.vol in t.pools[k.pool].volumes; }
      if k in VolKeys(s) { assert k.pool in s.pools && k.vol in s.pools[k.pool].volumes; }
    }
  }

  lemma DropVolumeRefines(s: State, p: u16, v: u16)
    ensures RegOf(DropVolume(s, p, v)) == Apply(RegOf(s), RemoveVolume(VolKey(p, v)))
  {
    hide VolKeys;
    var t := DropVolume(s, p, v);
    KeysLessVolume(s, p, v);
    VolumesLeft(s, p, v);
    var r, q := RegOf(t), Apply(RegOf(s), RemoveVolume(VolKey(p, v)));
    assert r.pools == q.pools;
    assert r.volumes == q.volumes;
  }

  lemma VolumesLeft(s: State, p: u16, v: u16)
    ensures forall k | k in VolKeys(DropVolume(s, p, v)) ::
            k in VolKeys(s) && VolOf(DropVolume(s, p, v), k) == VolOf(s, k)
  {
  }

  lemma CreatePoolRefines(
      c: ServerConfig, w: World, inn: CreatePoolRequest, id: u16, w': World, res: PoolInfo, code: Code)
    requires WellKeyed(w.st) && id != 0 && CreatePoolOutcome(c, w, inn, id, w', res, code)
    ensures code in {OK, Internal} ==>
      && id !in w.st.pools
      && RegOf(w'.st) == Apply(RegOf(w.st), AddPool(id, NewPool(inn, id).name))
    ensures code !in {OK, Internal} ==> w'.st == w.st
  {
    hide TargetPut, TpgOf, RegOf, Apply, Fs.Wf, Saved;
    if code in {OK, Internal} {
      forall q | q in w.st.pools ensures q != id { assert w.st.pools[q].id == q; }
      PutPoolRefines(w.st, NewPool(inn, id));
    }
  }

  lemma CreateVolumeRefines(
      c: ServerConfig, w: World, inn: CreateVolumeRequest, id: u16, w': World, res: VolumeInfo, code: Code)
    requires WellKeyed(w.st) && CreateVolumeOutcome(c, w, inn, id, w', res, code)
    ensures id == 0 || inn.volumeSize < 1 || code in {FailedPrecondition, ResourceExhausted} ==> w'.st == w.st
    ensures id != 0 && inn.volumeSize >= 1 && code !in {FailedPrecondition, ResourceExhausted, OK, Internal} ==>
            w'.st == Bump(w.st, id)
    ensures code in {OK, Internal} ==>
      var p := ToU16(inn.poolId);
      && id != 0 && inn.volumeSize >= 1
      && p in w.st.pools && id !in w.st.pools[p].volumes
      && w'.st == PutVolume(Bump(w.st, id), p, NewVolume(inn, id))
  {
    hide VolumePut, MadeInOrder, VolumeMade, Fs.Wf, Saved, NewVolume, PutVolume;
    if code in {OK, Internal} {
      NotInPool(w.st, ToU16(inn.poolId), id);
    }
  }

  lemma NotInPool(s: State, p: u16, id: u16)
    requires WellKeyed(s) && p in s.pools && !VolumeConflict(s.pools[p], id)
    ensures id !in s.pools[p].volumes
  {
    forall v | v in s.pools[p].volumes ensures v != id { assert s.pools[p].volumes[v].id == v; }
  }

  lemma DeleteVolumeRefines(
      c: ServerConfig, w: World, inn: DeleteVolumeRequest, t: Target, kind: string, w': World, code: Code, cause: Err)
    requires WellKeyed(w.st) && DeleteVolumeOutcome(c, w, inn, t, kind, w', code, cause)
    ensures w'.st == if code in {OK, Internal} then DropVolume(w.st, ToU16(inn.poolId), ToU16(inn.volumeId)) else w.st
  {
    hide VolumeCut, LunOf, HbaName, Fs.Wf, Saved, FileOf, OnlyLinksFrom;
  }

  lemma DeletePoolRefines(c: ServerConfig, w: World, id: u32, t: Target, w': World, code: Code, cause: Err)
    requires DeletePoolOutcome(c, w, id, t, w', code, cause)
    ensures w'.st == if code in {OK, Internal} then DropPool(w.st, ToU16(id)) else w.st
  {
    hide TargetCut, TpgOf, Fs.Wf, Saved, LegibleLuns, AloneInIqn;
  }

  /** One step of a sound server is one operation of the sequential registry, and one that is
      enabled: however stale its scan, a create that goes through overwrites nothing. */
  lemma StepRefines(c: ServerConfig, w: World, e: Event, w': World)
    requires WellKeyed(w.st) && Step(c, w, e, w') && !e.Restarted?
    ensures Enabled(RegOf(w.st), OpOf(e))
    ensures RegOf(w'.st) == Apply(RegOf(w.st), OpOf(e))
  {
    hide CreatePoolOutcome, DeletePoolOutcome, CreateVolumeOutcome, DeleteVolumeOutcome, Reconciled, WellKeyed,
      ScannedBackstores, NextAfter,
      PutPool, DropPool, PutVolume, DropVolume, Bump;
    match e {
      case Ticked(_) =>
      case PoolCreated(inn, id, res, code) =>
        CreatePoolRefines(c, w, inn, id, w', res, code);
      case PoolDeleted(id, t, code, cause) =>
        DeletePoolRefines(c, w, id, t, w', code, cause);
        DropPoolRefines(w.st, ToU16(id));
      case VolumeCreated(inn, id, backstores, res, code) =>
        CreateVolumeRefines(c, w, inn, id, w', res, code);
        BumpRefines(w.st, id);
        if code in {OK, Internal} { PutVolumeRefines(w.st, ToU16(inn.poolId), NewVolume(inn, id)); }
      case VolumeDeleted(inn, t, kind, code, cause) =>
        DeleteVolumeRefines(c, w, inn, t, kind, w', code, cause);
        DropVolumeRefines(w.st, ToU16(inn.poolId), ToU16(inn.volumeId));
    }
  }

  // Invariants of every run.

  ghost predicate SoundWorld(w: World) {
    Sound(w.st) && (w.file.Holds? ==> Sound(w.file.state))
  }

  lemma CreatePoolStaysSound(
      c: ServerConfig, w: World, inn: CreatePoolRequest, id: u16, w': World, res: PoolInfo, code: Code)
    requires SoundWorld(w) && id != 0 && CreatePoolOutcome(c, w, inn, id, w', res, code)
    ensures SoundWorld(w') && w'.st.maxLunId == w.st.maxLunId
  {
    hide TargetPut, TpgOf, Fs.Wf;
  }

  lemma DeletePoolStaysSound(c: ServerConfig, w: World, id: u32, t: Target, w': World, code: Code, cause: Err)
    requires SoundWorld(w) && DeletePoolOutcome(c, w, id, t, w', code, cause)
    ensures SoundWorld(w') && w'.st.maxLunId == w.st.maxLunId
  {
    hide TargetCut, TpgOf, Fs.Wf, LegibleLuns, AloneInIqn;
  }

  lemma CreateVolumeStaysSound(
      c: ServerConfig, w: World, inn: CreateVolumeRequest, id: u16, w': World, res: VolumeInfo, code: Code)
    requires SoundWorld(w) && CreateVolumeOutcome(c, w, inn, id, w', res, code)
    ensures SoundWorld(w') && w'.st.maxLunId >= w.st.maxLunId
    ensures id != 0 && inn.volumeSize >= 1 && code !in {FailedPrecondition, ResourceExhausted} ==> w'.st.maxLunId >= id
  {
    hide VolumePut, MadeInOrder, VolumeMade, Fs.Wf, VolumeConflict;
  }

  lemma DeleteVolumeStaysSound(
      c: ServerConfig, w: World, inn: DeleteVolumeRequest, t: Target, kind: string, w': World, code: Code, cause: Err)
    requires SoundWorld(w) && DeleteVolumeOutcome(c, w, inn, t, kind, w', code, cause)
    ensures SoundWorld(w') && w'.st.maxLunId == w.st.maxLunId
  {
    hide VolumeCut, LunOf, HbaName, Fs.Wf, FileOf, OnlyLinksFrom;
  }

  /** Whether the call worked with an allocated or requested volume id. */
  predicate UsesId(e: Event) {
    e.VolumeCreated? && e.id != 0 && e.newVolume.volumeSize >= 1 && e.code !in {FailedPrecondition, ResourceExhausted}
  }

  lemma StepStaysSound(c: ServerConfig, w: World, e: Event, w': World)
    requires SoundWorld(w) && Step(c, w, e, w')
    ensures SoundWorld(w')
    ensures !e.Restarted? ==> w'.st.maxLunId >= w.st.maxLunId
    ensures UsesId(e) ==> w'.st.maxLunId >= e.id
  {
    hide CreatePoolOutcome, DeletePoolOutcome, CreateVolumeOutcome, DeleteVolumeOutcome, Reconciled, Sound,
      ScannedBackstores, NextAfter;
    match e {
      case Ticked(_) =>
      case PoolCreated(inn, id, res, code) => CreatePoolStaysSound(c, w, inn, id, w', res, code);
      case PoolDeleted(id, t, code, cause) => DeletePoolStaysSound(c, w, id, t, w', code, cause);
      case VolumeCreated(inn, id, backstores, res, code) => CreateVolumeStaysSound(c, w, inn, id, w', res, code);
      case VolumeDeleted(inn, t, kind, code, cause) => DeleteVolumeStaysSound(c, w, inn, t, kind, w', code, cause);
      case Restarted(_) => LoadedIsSound(w.file);
    }
  }

  lemma LoadedIsSound(file: StateFile)
    requires file.Holds? ==> Sound(file.state)
    ensures Sound(Loaded(file))
  {
  }

  /** In every world of every run, after failed calls and restarts too, pools and volumes are
      stored under their own ids and no volume id is above the high-water mark. */
  lemma {:induction false} RunStaysSound(c: ServerConfig, ws: seq<World>, es: seq<Event>, i: nat)
    requires Run(c, ws, es) && SoundWorld(ws[0]) && i <= |es|
    ensures SoundWorld(ws[i])
  {
    hide Step, SoundWorld;
    if i > 0 {
      RunStaysSound(c, ws, es, i - 1);
      StepStaysSound(c, ws[i - 1], es[i - 1], ws[i]);
    }
  }

  /** Every run of one process has the registry that the sequential registry reaches by the
      same calls in the order of their commits, and each of those calls was enabled. */
  lemma {:induction false} RunRefines(c: ServerConfig, ws: seq<World>, es: seq<Event>, i: nat)
    requires Run(c, ws, es) && SoundWorld(ws[0]) && i <= |es|
    requires forall j | 0 <= j < i :: !es[j].Restarted?
    ensures RegOf(ws[i].st) == Replay(RegOf(ws[0].st), es[..i])
    ensures forall j | 0 <= j < i :: Enabled(RegOf(ws[j].st), OpOf(es[j]))
  {
    hide Step, Sound, RegOf, Enabled, Apply;
    if i > 0 {
      RunRefines(c, ws, es, i - 1);
      RunStaysSound(c, ws, es, i - 1);
      SoundIsKeyed(ws[i - 1].st);
      StepRefines(c, ws[i - 1], es[i - 1], ws[i]);
      assert es[..i][..i - 1] == es[..i - 1];
    }
  }

  lemma SoundIsKeyed(s: State)
    requires Sound(s)
    ensures WellKeyed(s)
  {
  }

  /** Within a process the high-water mark never falls. */
  lemma {:induction false} HighWaterRises(c: ServerConfig, ws: seq<World>, es: seq<Event>, i: nat, j: nat)
    requires Run(c, ws, es) && SoundWorld(ws[0]) && i <= j <= |es|
    requires forall k | i <= k < j :: !es[k].Restarted?
    ensures ws[i].st.maxLunId <= ws[j].st.maxLunId
  {
    hide Step, SoundWorld;
    if i < j {
      HighWaterRises(c, ws, es, i, j - 1);
      RunStaysSound(c, ws, es, j - 1);
      StepStaysSound(c, ws[j - 1], es[j - 1], ws[j]);
    }
  }

  /** Within a process an id allocated after a scan that found something is above every id
      used before, and new to every pool. */
  lemma AllocatedIdsRise(c: ServerConfig, ws: seq<World>, es: seq<Event>, i: nat, j: nat)
    requires Run(c, ws, es) && SoundWorld(ws[0]) && i < j < |es|
    requires forall k | i <= k < j :: !es[k].Restarted?
    requires UsesId(es[i]) && UsesId(es[j]) && es[j].newVolume.volumeId.None? && es[j].backstores != []
    ensures es[i].id < es[j].id
    ensures forall k | k in VolKeys(ws[j].st) :: k.vol < es[j].id
  {
    hide CreateVolumeOutcome, ScannedBackstores, VolKeys, SoundWorld;
    RunStaysSound(c, ws, es, i);
    StepStaysSound(c, ws[i], es[i], ws[i + 1]);
    HighWaterRises(c, ws, es, i + 1, j);
    RunStaysSound(c, ws, es, j);
    BelowHighWater(ws[j]);
    assert Step(c, ws[j], es[j], ws[j + 1]);
  }

  lemma BelowHighWater(w: World)
    requires SoundWorld(w)
    ensures forall k | k in VolKeys(w.st) :: k.vol <= w.st.maxLunId
  {
  }

  // What is not this server's.

  /** A delete works on a target under the base name, or on the zero target. */
  predicate OwnTargets(c: ServerConfig, e: Event) {
    match e
    case PoolDeleted(_, t, _, _) => t == ZERO_TARGET || Ours(c.baseIqn, t.iqn)
    case VolumeDeleted(_, t, _, _, _) => Ours(c.baseIqn, t.iqn)
    case _ => true
  }

  lemma CutSpares(c: ServerConfig, a: Fs, b: Fs, t: Target)
    requires a.Wf() && TargetCut(a, b, TpgOf(t)) && (t == ZERO_TARGET || Ours(c.baseIqn, t.iqn))
    requires t.iqn == "" ==> b == a.(root := b.root)
    ensures Reconciler.SparesTargets(a, b, c.baseIqn)
  {
    hide Ours, TpgName;
  }

  lemma VolumePutSpares(c: ServerConfig, a: Fs, b: Fs, pool: StatePool, volume: StateVolume)
    requires VolumePut(c, a, b, pool, volume)
    ensures Reconciler.SparesTargets(a, b, c.baseIqn)
  {
    hide Ours, TpgName, LunName, HbaName, ImagePath, BackstorePut, FileTouched;
    Reconciler.OursTarget(c, pool);
  }

  lemma VolumeCutSpares(c: ServerConfig, a: Fs, b: Fs, t: Target, v: u16, hba: string)
    requires VolumeCut(a, b, LunOf(t, v), hba) && Ours(c.baseIqn, t.iqn)
    ensures Reconciler.SparesTargets(a, b, c.baseIqn)
  {
    hide Ours, TpgName, LunName;
  }

  lemma StepSpares(c: ServerConfig, w: World, e: Event, w': World)
    requires w.fs.Wf() && Step(c, w, e, w') && OwnTargets(c, e) && e != Restarted(true)
    ensures w'.fs.Wf() && Reconciler.SparesTargets(w.fs, w'.fs, c.baseIqn)
  {
    hide Reconciler.SparesTargets, Reconciler.KeepsLive, WellFormed, Managed, GoalOf, Ours, TargetPut, TargetCut,
      TpgOf, LunOf, HbaName, VolumePut, MadeInOrder, VolumeMade, VolumeCut, LegibleLuns, AloneInIqn, OnlyLinksFrom,
      PoolConflict, VolumeConflict, NewPool, NewVolume, PutPool, DropPool, PutVolume, DropVolume, Saved, FileOf, Fs.Wf,
      ScannedBackstores, NextAfter;
    Reconciler.SparesRefl(w.fs, c.baseIqn, {});
    match e {
      case PoolCreated(inn, id, _, _) =>
        Reconciler.OursTarget(c, NewPool(inn, id));
        if w'.fs != w.fs { Reconciler.TargetPutSpares(w.fs, w'.fs, c.baseIqn, TpgOf(TargetOf(c, NewPool(inn, id)))); }
      case PoolDeleted(_, t, _, _) => CutSpares(c, w.fs, w'.fs, t);
      case VolumeCreated(inn, id, _, _, _) =>
        if w'.fs != w.fs { VolumePutSpares(c, w.fs, w'.fs, w.st.pools[ToU16(inn.poolId)], NewVolume(inn, id)); }
      case VolumeDeleted(inn, t, kind, _, _) =>
        VolumeCutSpares(c, w.fs, w'.fs, t, ToU16(inn.volumeId), HbaName(kind, ToU16(inn.volumeId)));
      case _ =>
    }
  }

  /** Until the machine itself starts again, no run changes anything in a target of another
      server, whatever the registry and the kernel look like and whatever fails. */
  lemma {:induction false} RunSparesOthers(c: ServerConfig, ws: seq<World>, es: seq<Event>, i: nat)
    requires Run(c, ws, es) && ws[0].fs.Wf() && i <= |es|
    requires forall j | 0 <= j < i :: OwnTargets(c, es[j]) && es[j] != Restarted(true)
    ensures ws[i].fs.Wf() && Reconciler.SparesTargets(ws[0].fs, ws[i].fs, c.baseIqn)
  {
    hide Step, OwnTargets, Fs.Wf, Reconciler.SparesTargets;
    if i == 0 {
      Reconciler.SparesRefl(ws[0].fs, c.baseIqn, {});
    } else {
      RunSparesOthers(c, ws, es, i - 1);
      StepSpares(c, ws[i - 1], es[i - 1], ws[i]);
      SparesOn(ws[0].fs, ws[i - 1].fs, ws[i].fs, c.baseIqn);
    }
  }

  lemma SparesOn(a: Fs, b: Fs, d: Fs, base: string)
    requires Reconciler.SparesTargets(a, b, base) && Reconciler.SparesTargets(b, d, base)
    ensures Reconciler.SparesTargets(a, d, base)
  {
    hide Ours;
  }

  // What survives a restart.

  /** A call that was told its change is done. */
  predicate Acknowledged(e: Event) {
    || (e.PoolCreated? && e.code == OK)
    || (e.PoolDeleted? && e.code == OK)
    || (e.VolumeCreated? && e.code == OK)
    || (e.VolumeDeleted? && e.code == OK)
  }

  /** After an acknowledged call or a restart the file holds the registry; any other step
      leaves the file alone or tears it. */
  lemma StepSaves(c: ServerConfig, w: World, e: Event, w': World)
    requires Step(c, w, e, w')
    ensures Acknowledged(e) || e.Restarted? ==> w'.file == Holds(w'.st)
    ensures !Acknowledged(e) && !e.Restarted? ==> w'.file == w.file || w'.file == Torn
  {
    hide TargetPut, TargetCut, TpgOf, VolumePut, MadeInOrder, VolumeMade, VolumeCut, LunOf, HbaName, Fs.Wf,
      PoolConflict, VolumeConflict, Reconciled, ScannedBackstores, NextAfter, PutPool, DropPool, PutVolume, DropVolume,
      FileOf;
  }

  /** The file holds the registry of the world before `es[j]`, and nothing acknowledged since. */
  ghost predicate FileFrom(ws: seq<World>, es: seq<Event>, i: nat, j: nat)
    requires |ws| == |es| + 1 && i <= |es|
  {
    && j <= i
    && ws[i].file == Holds(ws[j].st)
    && forall k | j <= k < i :: !Acknowledged(es[k])
  }

  /** As long as the file is not torn, it holds a registry the server had after its last
      acknowledged call. */
  lemma {:induction false} FileIsFromTheRun(c: ServerConfig, ws: seq<World>, es: seq<Event>, i: nat) returns (j: nat)
    requires Run(c, ws, es) && ws[0].file == Holds(ws[0].st) && i <= |es|
    requires !ws[i].file.Torn?
    ensures FileFrom(ws, es, i, j)
  {
    hide Step;
    if i == 0 {
      j := 0;
    } else {
      StepSaves(c, ws[i - 1], es[i - 1], ws[i]);
      if Acknowledged(es[i - 1]) || es[i - 1].Restarted? {
        j := i;
      } else {
        j := FileIsFromTheRun(c, ws, es, i - 1);
      }
    }
  }

  /** A restart brings back the registry as it was at some moment after the last acknowledged
      call: no acknowledged change is lost. */
  lemma RestartKeepsAcknowledged(c: ServerConfig, ws: seq<World>, es: seq<Event>, i: nat) returns (j: nat)
    requires Run(c, ws, es) && ws[0].file == Holds(ws[0].st) && i < |es| && es[i].Restarted?
    ensures j <= i && ws[i + 1].st == ws[j].st
    ensures forall k | j <= k < i :: !Acknowledged(es[k])
  {
    hide Reconciled;
    assert Step(c, ws[i], es[i], ws[i + 1]);
    j := FileIsFromTheRun(c, ws, es, i);
  }

  /** A torn file stays torn, and stops every restart, until a call is acknowledged: that is the
      one way in which acknowledged changes become unreachable. */
  lemma {:induction false} TornUntilAcknowledged(c: ServerConfig, ws: seq<World>, es: seq<Event>, i: nat, j: nat)
    requires Run(c, ws, es) && i <= j <= |es| && ws[i].file.Torn?
    requires forall k | i <= k < j :: !Acknowledged(es[k])
    ensures ws[j].file.Torn?
    ensures forall k | i <= k < j :: !es[k].Restarted?
  {
    hide Step;
    if i < j {
      TornUntilAcknowledged(c, ws, es, i, j - 1);
      StepSaves(c, ws[j - 1], es[j - 1], ws[j]);
      TornIsNoStart(c, ws[j - 1], es[j - 1], ws[j]);
    }
  }

  lemma TornIsNoStart(c: ServerConfig, w: World, e: Event, w': World)
    requires w.file.Torn? && Step(c, w, e, w')
    ensures !e.Restarted?
  {
    hide Reconciled, CreatePoolOutcome, DeletePoolOutcome, CreateVolumeOutcome, DeleteVolumeOutcome;
  }

  // Runs the kernel can follow.

  /** The server is healthy, and would be if it were started from its file: the file's registry
      is well formed, agrees with memory on the ids they share, and has nothing stale under its
      own ids in the kernel. */
  ghost predicate Durable(c: ServerConfig, w: World) {
    var r := Loaded(w.file);
    Healthy(c, w) && WellFormed(c, r) && Clear(c, w.fs, r) && Agree(r, w.st)
  }

  /** A create that registers something or adds to the tree uses what nobody else has when it
      commits; and what it adds without rewriting the file has no id that the file has for
      something else.  Other creates, and all other steps, need nothing. */
  ghost predicate Fresh(c: ServerConfig, w: World, e: Event, w': World) {
    match e
    case PoolCreated(inn, id, _, code) =>
      && FreshPoolCall(c, w, inn, id, w', code)
      && (w'.file == w.file && (code == Internal || !Shrunk(w.fs, w'.fs)) && code != OK ==>
            NoPoolClash(Loaded(w.file), NewPool(inn, id)))
    case VolumeCreated(inn, id, _, _, code) =>
      (code in {OK, Internal} || !Shrunk(w.fs, w'.fs)) && ToU16(inn.poolId) in w.st.pools ==>
        && FreshVolumeCall(c, w, inn, id)
        && (code != OK && w'.file == w.file ==>
              NoVolumeClash(Loaded(w.file), w.st.pools[ToU16(inn.poolId)], NewVolume(inn, id)))
    case _ => true
  }

  lemma SavedIsDurable(c: ServerConfig, w: World)
    requires Healthy(c, w) && w.file == Holds(w.st)
    ensures Durable(c, w)
  {
    hide WellFormed, Tidy, Clear, Agree;
    AgreeWithSelf(c, w.st);
  }

  lemma TornIsDurable(c: ServerConfig, w: World)
    requires Healthy(c, w) && !w.file.Holds?
    ensures Durable(c, w)
  {
    hide Tidy;
    assert VolKeys(EMPTY_STATE) == {};
    assert WellFormed(c, EMPTY_STATE);
    assert Clear(c, w.fs, EMPTY_STATE) && Agree(EMPTY_STATE, w.st);
  }

  lemma LessStaysAgreed(r: State, s: State, t: State)
    requires Agree(r, s) && SubState(t, s)
    ensures Agree(r, t)
  {
    hide VolKeys;
    SubStateKeys(t, s);
  }

  lemma TickStaysDurable(c: ServerConfig, a: Fs, b: Fs, w: World, ok: bool)
    requires Durable(c, w) && a == w.fs && Reconciled(c, a, b, w.st, ok)
    ensures Durable(c, w.(fs := b)) && (ok ==> Converged(b, GoalOf(c, w.st)))
    ensures Reconciler.Progress(a, b, GoalOf(c, w.st))
  {
    hide WellFormed, Tidy, Clear, Agree, GoalOf, Managed, Converged, Reconciler.KeepsLive;
    var r := Loaded(w.file);
    ClearFromParts(c, a, w.st);
    HealthyIsManaged(c, a, w.st);
    Reconciler.ProgressFacts(a, b, GoalOf(c, w.st));
    ReconcileStaysHealthy(c, a, b, w.st);
    WellFormedParts(c, r);
    TowardStaysClear(c, a, b, w.st, r);
  }

  lemma CreatePoolStaysDurable(
      c: ServerConfig, w: World, inn: CreatePoolRequest, id: u16, w': World, res: PoolInfo, code: Code)
    requires Durable(c, w) && id != 0 && CreatePoolOutcome(c, w, inn, id, w', res, code)
    requires Fresh(c, w, PoolCreated(inn, id, res, code), w')
    ensures Durable(c, w')
  {
    hide WellFormed, Tidy, Clear, Agree, TargetPut, TpgOf, PutPool, NewPool, PoolConflict, FreshPoolCall,
      NoPoolClash, Fs.Wf, Shrunk;
    var r, pool := Loaded(w.file), NewPool(inn, id);
    CreatePoolStaysHealthy(c, w, inn, id, w', res, code);
    SameIsShrunk(w.fs, w'.fs);
    if w'.file == Holds(w'.st) {
      SavedIsDurable(c, w');
    } else if !w'.file.Holds? {
      TornIsDurable(c, w');
    } else if code !in {OK, Internal} && Shrunk(w.fs, w'.fs) {
      ShrunkStaysDurable(c, w, w');
    } else {
      NewPoolIs(inn, id);
      WellFormedParts(c, r);
      WellFormedParts(c, w.st);
      PutTargetStaysClear(c, w.fs, w'.fs, r, pool);
      if code == Internal {
        IdIsNew(w.st, inn, id);
        NewPoolAgrees(r, w.st, pool);
      }
    }
  }

  lemma ShrunkStaysDurable(c: ServerConfig, w: World, w': World)
    requires Durable(c, w) && Shrunk(w.fs, w'.fs) && w'.fs.Wf() && w'.st.pools == w.st.pools && w'.file == w.file
    ensures Durable(c, w')
  {
    hide WellFormed, Tidy, Clear, Agree, Shrunk, SubState, Fs.Wf;
    ShrunkStaysHealthy(c, w, w');
    ShrunkStaysClear(c, w.fs, w'.fs, Loaded(w.file));
    LessStaysAgreed(Loaded(w.file), w.st, w'.st);
  }

  lemma NewPoolAgrees(r: State, s: State, pool: StatePool)
    requires Agree(r, s) && NoPoolClash(r, pool) && pool.id !in s.pools && pool.volumes == map[]
    ensures Agree(r, PutPool(s, pool))
  {
    hide VolKeys;
    NewKeysOfPool(s, pool);
    SubStateKeys(s, PutPool(s, pool));
  }

  lemma DeleteStaysDurable(c: ServerConfig, w: World, w': World)
    requires Durable(c, w) && Healthy(c, w') && Shrunk(w.fs, w'.fs) && SubState(w'.st, w.st)
    requires w'.file == w.file || w'.file == Torn || w'.file == Holds(w'.st)
    ensures Durable(c, w')
  {
    hide WellFormed, Tidy, Clear, Agree, Shrunk, SubState;
    if w'.file == Holds(w'.st) {
      SavedIsDurable(c, w');
    } else if !w'.file.Holds? {
      TornIsDurable(c, w');
    } else {
      ShrunkStaysClear(c, w.fs, w'.fs, Loaded(w.file));
      LessStaysAgreed(Loaded(w.file), w.st, w'.st);
    }
  }

  lemma CreateVolumeStaysDurable(
      c: ServerConfig, w: World, inn: CreateVolumeRequest, id: u16, backstores: seq<Backstore>, w': World,
      res: VolumeInfo, code: Code)
    requires Durable(c, w) && CreateVolumeOutcome(c, w, inn, id, w', res, code)
    requires Fresh(c, w, VolumeCreated(inn, id, backstores, res, code), w')
    ensures Durable(c, w')
  {
    hide WellFormed, Tidy, Clear, Agree, VolumePut, MadeInOrder, VolumeMade, PutVolume, NewVolume, VolumeConflict,
      FreshVolumeCall, NoVolumeClash, NoPoolClash, Fs.Wf, Shrunk;
    var r, p, volume := Loaded(w.file), ToU16(inn.poolId), NewVolume(inn, id);
    SameIsShrunk(w.fs, w'.fs);
    NoPoolNoChange(c, w, inn, id, w', res, code);
    CreateVolumeStaysHealthy(c, w, inn, id, w', res, code);
    if w'.file == Holds(w'.st) {
      SavedIsDurable(c, w');
    } else if !w'.file.Holds? {
      TornIsDurable(c, w');
    } else if code !in {OK, Internal} && Shrunk(w.fs, w'.fs) {
      ShrunkStaysDurable(c, w, w');
    } else {
      BumpAgrees(r, w.st, id);
      WellFormedParts(c, r);
      WellFormedParts(c, w.st);
      FreshCallParts(c, w, inn, id);
      AgreedNoClash(r, w.st, p);
      PutVolumeStaysClear(c, w.fs, w'.fs, r, w.st.pools[p], volume);
      if code == Internal { NewVolumeAgrees(c, r, w.st, p, volume, id); }
    }
  }

  lemma NoPoolNoChange(
      c: ServerConfig, w: World, inn: CreateVolumeRequest, id: u16, w': World, res: VolumeInfo, code: Code)
    requires CreateVolumeOutcome(c, w, inn, id, w', res, code)
    ensures code in {OK, Internal} || w'.fs != w.fs ==> ToU16(inn.poolId) in w.st.pools
    ensures code in {OK, Internal} || w'.fs != w.fs ==> code in {Aborted, Crashed, OK, Internal}
  {
    hide VolumePut, MadeInOrder, VolumeMade, VolumeConflict, Fs.Wf, Saved, PutVolume, NewVolume;
  }

  lemma FreshCallParts(c: ServerConfig, w: World, inn: CreateVolumeRequest, id: u16)
    requires FreshVolumeCall(c, w, inn, id) && ToU16(inn.poolId) in w.st.pools
    ensures forall k | k in VolKeys(w.st) :: k.vol != id
    ensures NewVolume(inn, id).id == id
  {
    hide VolKeys, OwnExport;
  }

  lemma AgreedNoClash(r: State, s: State, p: u16)
    requires WellKeyed(r) && WellKeyed(s) && Agree(r, s) && p in s.pools
    ensures NoPoolClash(r, s.pools[p])
  {
    hide VolKeys;
  }

  lemma BumpAgrees(r: State, s: State, id: u16)
    requires Agree(r, s)
    ensures Agree(r, Bump(s, id))
  {
    assert VolKeys(Bump(s, id)) == VolKeys(s);
  }

  lemma NewVolumeAgrees(c: ServerConfig, r: State, s: State, p: u16, volume: StateVolume, id: u16)
    requires WellKeyed(s) && Agree(r, s) && p in s.pools && volume.id == id && NoVolumeClash(r, s.pools[p], volume)
    requires forall k | k in VolKeys(s) :: k.vol != id
    ensures Agree(r, PutVolume(Bump(s, id), p, volume))
  {
    hide VolKeys;
    var t, n := Bump(s, id), VolKey(p, id);
    BumpKeys(s, id);
    NewInPool(t, p, id);
    NewKeysOfVolume(t, p, volume);
    SubStateKeys(t, PutVolume(t, p, volume));
  }

  lemma BumpKeys(s: State, id: u16)
    ensures VolKeys(Bump(s, id)) == VolKeys(s)
    ensures forall k | k in VolKeys(s) :: VolOf(Bump(s, id), k) == VolOf(s, k)
  {
  }

  /** What is registered survives a reboot: the emptied tree is tidy, and clear for any registry. */
  lemma RebootStaysDurable(c: ServerConfig, w: World)
    requires Durable(c, w)
    ensures Durable(c, w.(fs := Rebooted(w.fs)))
  {
    hide WellFormed, Tidy, Clear, Agree;
    var b := Rebooted(w.fs);
    assert Shrunk(w.fs, b) && b.Wf();
    ShrunkStaysTidy(c.baseIqn, w.fs, b);
    ShrunkStaysClear(c, w.fs, b, w.st);
    ShrunkStaysClear(c, w.fs, b, Loaded(w.file));
  }

  lemma RestartStaysDurable(c: ServerConfig, w: World, w': World, rebooted: bool)
    requires Durable(c, w) && w'.st == Loaded(w.file) && w'.file == Holds(w'.st)
    requires Reconciled(c, if rebooted then Rebooted(w.fs) else w.fs, w'.fs, w'.st, true)
    ensures Durable(c, w') && Converged(w'.fs, GoalOf(c, w'.st))
  {
    hide WellFormed, Tidy, Clear, Agree, GoalOf, Managed, Converged, Reconciled, Rebooted;
    var start := if rebooted then w.(fs := Rebooted(w.fs)) else w;
    if rebooted { RebootStaysDurable(c, w); }
    AgreeWithSelf(c, w'.st);
    TickStaysDurable(c, start.fs, w'.fs, start.(st := w'.st), true);
    SavedIsDurable(c, w');
  }

  /** A converged server with a saved registry comes back from a reboot with the same registry,
      the same view and the same bytes on disk. */
  lemma RebootRestores(c: ServerConfig, w: World, w': World)
    requires Healthy(c, w) && w.file == Holds(w.st) && Converged(w.fs, GoalOf(c, w.st))
    requires Step(c, w, Restarted(true), w') && Answered(Rebooted(w.fs), w'.fs, GoalOf(c, w.st))
    ensures w'.st == w.st
    ensures ViewOf(w'.fs, c.baseIqn) == ViewOf(w.fs, c.baseIqn) && w'.fs.files == w.fs.files
  {
    hide WellFormed, Tidy, Clear, Agree, GoalOf, Managed, Converged, Toward, ViewOf, Answered, Rebooted;
    var b, g := Rebooted(w.fs), GoalOf(c, w.st);
    SavedIsDurable(c, w);
    RebootStaysDurable(c, w);
    TickStaysDurable(c, b, w'.fs, w.(fs := b), true);
    Reconciler.ProgressFacts(b, w'.fs, g);
    GoalBase(c, w.st);
    RebootKeepsFiles(w.fs);
    Guarantees.ConvergedFiles(w.fs, b, g);
    Guarantees.ReconcileRestores(w.fs, b, w'.fs, g);
  }

  lemma RebootKeepsFiles(fs: Fs)
    ensures Rebooted(fs).files == fs.files
  {
  }

  lemma StepStaysDurable(c: ServerConfig, w: World, e: Event, w': World)
    requires Durable(c, w) && Fresh(c, w, e, w') && Step(c, w, e, w')
    ensures Durable(c, w')
    ensures e == Ticked(true) || e.Restarted? ==> WellFormed(c, w'.st) && Converged(w'.fs, GoalOf(c, w'.st))
  {
    hide CreatePoolOutcome, DeletePoolOutcome, CreateVolumeOutcome, DeleteVolumeOutcome, Converged, Managed,
      WellFormed, GoalOf,
      ScannedBackstores, NextAfter, Fresh, Reconciled, Rebooted, Tidy, Clear, Agree, Shrunk, SubState;
    match e {
      case Ticked(ok) => TickStaysDurable(c, w.fs, w'.fs, w, ok);
      case PoolCreated(inn, id, res, code) => CreatePoolStaysDurable(c, w, inn, id, w', res, code);
      case PoolDeleted(id, t, code, cause) =>
        DeletePoolStaysHealthy(c, w, id, t, w', code, cause);
        StepSaves(c, w, e, w');
        DeleteStaysDurable(c, w, w');
      case VolumeCreated(inn, id, backstores, res, code) =>
        CreateVolumeStaysDurable(c, w, inn, id, backstores, w', res, code);
      case VolumeDeleted(inn, t, kind, code, cause) =>
        DeleteVolumeStaysHealthy(c, w, inn, t, kind, w', code, cause);
        StepSaves(c, w, e, w');
        DeleteStaysDurable(c, w, w');
      case Restarted(rebooted) => RestartStaysDurable(c, w, w', rebooted);
    }
  }

  /** Whatever fails and however calls, reconciles, restarts and reboots interleave, a run of fresh
      requests keeps the registry well formed and the kernel one that a reconcile can repair,
      for memory and for the file; and each complete reconcile shows exactly the registry of
      the moment. */
  lemma {:induction false} RunStaysDurable(c: ServerConfig, ws: seq<World>, es: seq<Event>, i: nat)
    requires Run(c, ws, es) && Durable(c, ws[0]) && i <= |es|
    requires forall j | 0 <= j < i :: Fresh(c, ws[j], es[j], ws[j + 1])
    ensures Durable(c, ws[i])
    ensures forall j | 0 <= j < i && (es[j] == Ticked(true) || es[j].Restarted?) ::
              WellFormed(c, ws[j + 1].st) && Converged(ws[j + 1].fs, GoalOf(c, ws[j + 1].st))
  {
    hide Step, Fresh, Durable, WellFormed, GoalOf, Converged;
    if i > 0 {
      RunStaysDurable(c, ws, es, i - 1);
      StepStaysDurable(c, ws[i - 1], es[i - 1], ws[i]);
    }
  }

  /** In such a run a registered volume's backstore is linked by its own LUN only, and the
      deletion of a listed target or of a registered volume is aborted by nothing but a fault. */
  lemma RunDeletesLegally(c: ServerConfig, ws: seq<World>, es: seq<Event>, i: nat)
    requires Run(c, ws, es) && Durable(c, ws[0]) && i < |es|
    requires forall j | 0 <= j < i :: Fresh(c, ws[j], es[j], ws[j + 1])
    ensures forall k | k in VolKeys(ws[i].st) :: OnlyLinksFrom(ws[i].fs, HbaName(FILEIO, k.vol), VolLun(c, ws[i].st, k))
    ensures es[i].PoolDeleted? && es[i].code == Aborted && TargetListed(ws[i].fs, c.baseIqn, es[i].target) ==>
              es[i].cause == Fault
    ensures es[i].VolumeDeleted? && es[i].code == Aborted && Finds(c, ws[i], es[i]) ==> es[i].cause == Fault
  {
    hide Durable, Healthy, OnlyLinksFrom, VolLun, HbaName, Fresh, VolKeys, Finds, TargetListed, Reconciled,
      CreatePoolOutcome, DeletePoolOutcome, CreateVolumeOutcome, DeleteVolumeOutcome, ScannedBackstores, NextAfter;
    var w := ws[i];
    RunStaysDurable(c, ws, es, i);
    DurableIsHealthy(c, w);
    forall k | k in VolKeys(w.st) ensures OnlyLinksFrom(w.fs, HbaName(FILEIO, k.vol), VolLun(c, w.st, k)) {
      OnlyItsLunLinks(c, w, k);
    }
    assert Step(c, w, es[i], ws[i + 1]);
    match es[i] {
      case PoolDeleted(id, t, code, cause) =>
        if TargetListed(w.fs, c.baseIqn, t) { HealthyDeletePool(c, w, id, t, ws[i + 1], code, cause); }
      case VolumeDeleted(inn, t, kind, code, cause) =>
        if Finds(c, w, es[i]) { FoundDelete(c, w, es[i], ws[i + 1]); }
      case _ =>
    }
  }

  /** The volume is registered, and what the scan found of it is still so. */
  ghost predicate Finds(c: ServerConfig, w: World, e: Event)
    requires e.VolumeDeleted?
  {
    && Registered(w.st, ToU16(e.oldVolume.poolId), ToU16(e.oldVolume.volumeId)).Some?
    && e.target.id == e.oldVolume.poolId && TargetListed(w.fs, c.baseIqn, e.target)
    && KindFound(w.fs, ToU16(e.oldVolume.volumeId), e.kind)
  }

  lemma FoundDelete(c: ServerConfig, w: World, e: Event, w': World)
    requires e.VolumeDeleted? && Finds(c, w, e) && Healthy(c, w)
    requires DeleteVolumeOutcome(c, w, e.oldVolume, e.target, e.kind, w', e.code, e.cause)
    ensures e.code == Aborted ==> e.cause == Fault
  {
    hide Healthy, TargetListed, KindFound, Registered, DeleteVolumeOutcome;
    HealthyDeleteVolume(c, w, e.oldVolume, e.target, e.kind, w', e.code, e.cause);
  }

  lemma DurableIsHealthy(c: ServerConfig, w: World)
    requires Durable(c, w)
    ensures Healthy(c, w)
  {
    hide Healthy;
  }

  /** A machine the server has never run on, with nothing registered: where the first run starts. */
  lemma FirstStartIsDurable(c: ServerConfig)
    ensures Durable(c, World(Fs(false, {}, map[], {}, {}, map[], {}, map[], map[], map[]), EMPTY_STATE, Absent))
  {
    var w := World(Fs(false, {}, map[], {}, {}, map[], {}, map[], map[], map[]), EMPTY_STATE, Absent);
    assert VolKeys(EMPTY_STATE) == {};
    assert Healthy(c, w);
    TornIsDurable(c, w);
  }

  // The retry loop.

  lemma TickProgresses(c: ServerConfig, w: World, e: Event, w': World)
    requires Healthy(c, w) && e.Ticked? && Step(c, w, e, w')
    ensures Healthy(c, w') && w'.st == w.st && Reconciler.Progress(w.fs, w'.fs, GoalOf(c, w.st))
  {
    hide WellFormed, Tidy, Clear, GoalOf, Managed, Converged;
    ClearFromParts(c, w.fs, w.st);
    HealthyIsManaged(c, w.fs, w.st);
    Reconciler.ProgressFacts(w.fs, w'.fs, GoalOf(c, w.st));
    ReconcileStaysHealthy(c, w.fs, w'.fs, w.st);
  }

  lemma {:induction false} TicksProgress(c: ServerConfig, ws: seq<World>, es: seq<Event>, i: nat)
    requires Run(c, ws, es) && Healthy(c, ws[0]) && i <= |es|
    requires forall j | 0 <= j < i :: es[j].Ticked?
    ensures Healthy(c, ws[i]) && ws[i].st == ws[0].st
    ensures Reconciler.Progress(ws[0].fs, ws[i].fs, GoalOf(c, ws[0].st))
  {
    hide Step, WellFormed, Tidy, Clear, GoalOf, Managed, Reconciler.Progress;
    if i == 0 {
      ClearFromParts(c, ws[0].fs, ws[0].st);
      HealthyIsManaged(c, ws[0].fs, ws[0].st);
      Reconciler.NoProgressYet(ws[0].fs, GoalOf(c, ws[0].st));
    } else {
      TicksProgress(c, ws, es, i - 1);
      TickProgresses(c, ws[i - 1], es[i - 1], ws[i]);
      Reconciler.Chain(ws[0].fs, ws[i - 1].fs, ws[i].fs, GoalOf(c, ws[0].st));
    }
  }

  /** However many reconciles were cut short and wherever, the first complete one reaches the
      view and the disk files that a single complete one would have reached, provided that
      every stat of a disk file was answered. */
  lemma RetriesReachTheSameView(c: ServerConfig, ws: seq<World>, es: seq<Event>, once: Fs)
    requires Run(c, ws, es) && Healthy(c, ws[0]) && es != [] && es[|es| - 1] == Ticked(true)
    requires forall j | 0 <= j < |es| :: es[j].Ticked?
    requires Reconciled(c, ws[0].fs, once, ws[0].st, true)
    requires Answered(ws[0].fs, once, GoalOf(c, ws[0].st)) && Answered(ws[0].fs, ws[|es|].fs, GoalOf(c, ws[0].st))
    ensures ViewOf(ws[|es|].fs, c.baseIqn) == ViewOf(once, c.baseIqn) && ws[|es|].fs.files == once.files
  {
    hide WellFormed, Tidy, Clear, GoalOf, Managed, Converged, Toward, ViewOf, Answered;
    ClearFromParts(c, ws[0].fs, ws[0].st);
    HealthyIsManaged(c, ws[0].fs, ws[0].st);
    var n, g := |es|, GoalOf(c, ws[0].st);
    TicksProgress(c, ws, es, n);
    TicksProgress(c, ws, es, n - 1);
    assert Step(c, ws[n - 1], es[n - 1], ws[n]);
    GoalBase(c, ws[0].st);
    PrefixesDoNotMatter(ws[0].fs, once, ws[n].fs, g);
  }

  /** Once converged, reconciling on and on changes neither the view nor any byte on disk. */
  lemma IdleRunsChangeNothing(c: ServerConfig, ws: seq<World>, es: seq<Event>, i: nat)
    requires Run(c, ws, es) && Healthy(c, ws[0]) && Converged(ws[0].fs, GoalOf(c, ws[0].st)) && i <= |es|
    requires forall j | 0 <= j < i :: es[j].Ticked?
    requires Answered(ws[0].fs, ws[i].fs, GoalOf(c, ws[0].st))
    ensures Converged(ws[i].fs, GoalOf(c, ws[0].st)) && ws[i].st == ws[0].st
    ensures ViewOf(ws[i].fs, c.baseIqn) == ViewOf(ws[0].fs, c.baseIqn) && ws[i].fs.files == ws[0].fs.files
  {
    hide WellFormed, Tidy, Clear, GoalOf, Managed, Converged, Toward, ViewOf, Step, Answered;
    TicksProgress(c, ws, es, i);
    GoalBase(c, ws[0].st);
    ConvergedIsStable(ws[0].fs, ws[i].fs, GoalOf(c, ws[0].st));
  }
}
