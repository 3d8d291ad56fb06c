/** What one call of the service may do, as a relation between the world before it and the
    world after it.  The server's methods promise these relations; the theorems about calls,
    recovery and whole runs are proved from them. */
module Outcomes {
  import opened Types
  import opened Names
  import opened KernelTree
  import opened Frames
  import opened Registry

  datatype World = World(fs: Fs, st: State, file: StateFile)

  // Edits of the registry.

  function PutPool(s: State, pool: StatePool): State {
    s.(pools := s.pools[pool.id := pool])
  }

  function DropPool(s: State, id: u16): State {
    s.(pools := s.pools - {id})
  }

  function Bump(s: State, id: u16): State {
    s.(maxLunId := Max(s.maxLunId, id))
  }

  function PutVolume(s: State, p: u16, volume: StateVolume): State
    requires p in s.pools
  {
    s.(pools := s.pools[p := s.pools[p].(volumes := s.pools[p].volumes[volume.id := volume])])
  }

  /** Go's `delete` on the volume map of an absent pool does nothing. */
  function DropVolume(s: State, p: u16, v: u16): State {
    if p in s.pools then s.(pools := s.pools[p := s.pools[p].(volumes := s.pools[p].volumes - {v})]) else s
  }

  /** Well keyed, no volume id is above the high-water mark, and no volume has its pool's id:
      the field is never set. */
  predicate Sound(s: State) {
    && WellKeyed(s)
    && (forall p, v | p in s.pools && v in s.pools[p].volumes :: v <= s.maxLunId && s.pools[p].volumes[v].poolId == 0)
  }

  /** Saving reports success exactly when the file now holds the registry. */
  predicate Saved(before: StateFile, s: State, after: StateFile, ok: bool) {
    if ok then after == Holds(s) else after == before || after == Torn
  }

  // CreatePool.

  /** No portal group of this server has the id. */
  ghost predicate FreeTpgId(fs: Fs, c: ServerConfig, id: u16) {
    forall p | p in fs.tpgs && Ours(c.baseIqn, p.iqn) :: ParseTpg(p.tpg) != Num(id)
  }

  function NewPool(inn: CreatePoolRequest, id: u16): StatePool {
    StatePool(id, if inn.poolName.Some? then inn.poolName.value else Dec(id), map[])
  }

  /** The check under the lock.  The name it compares has not been assigned yet, so it is
      empty: it only ever finds pools whose name is empty. */
  predicate PoolConflict(s: State, inn: CreatePoolRequest, id: u16) {
    exists p | p in s.pools :: s.pools[p].id == id || (inn.poolName.Some? && s.pools[p].name == "")
  }

  /** `id` is what was chosen before the lock was taken. */
  ghost predicate CreatePoolOutcome(
      c: ServerConfig, w: World, inn: CreatePoolRequest, id: u16, w': World, res: PoolInfo, code: Code) {
    var pool := NewPool(inn, id);
    var p := TpgOf(TargetOf(c, pool));
    && code in {AlreadyExists, Aborted, OK, Internal}
    && w'.fs.Wf()
    && (code == AlreadyExists <==> PoolConflict(w.st, inn, id))
    && (code == AlreadyExists ==> w' == w)
    && (code != AlreadyExists ==> TargetPut(w.fs, w'.fs, p))
    && (code == Aborted ==> w'.st == w.st && w'.file == w.file)
    && (code in {OK, Internal} ==>
          && p in w'.fs.tpgs && w'.fs.tpgs[p] == EXPORTED
          && w'.st == PutPool(w.st, pool)
          && Saved(w.file, w'.st, w'.file, code == OK)
          && res == PoolInfo(id, Active, pool.name, Iqn(c.baseIqn, pool.name)))
  }

  // DeletePool.

  /** `t` is the target found before the lock was taken, or the zero target; `cause` is what
      stopped the kernel's part.  A removal is refused only when another portal group shares
      the target's directory, or a LUN's name is not legible. */
  ghost predicate DeletePoolOutcome(c: ServerConfig, w: World, id: u32, t: Target, w': World, code: Code, cause: Err) {
    && code in {Aborted, OK, Internal}
    && cause in {Ok, Busy, Syntax, Fault}
    && (code == Aborted <==> cause != Ok)
    && w'.fs.Wf()
    && TargetCut(w.fs, w'.fs, TpgOf(t))
    && (code == Aborted ==> w'.st == w.st && w'.file == w.file)
    && (t.iqn == "" ==> w'.fs == w.fs.(root := w'.fs.root))
    && (t.iqn == "" && w.fs.iqns != {} ==> cause in {Busy, Fault})
    && (t.iqn != "" && LegibleLuns(w.fs, TpgOf(t)) && AloneInIqn(w.fs, TpgOf(t)) ==> cause in {Ok, Fault})
    && (t.iqn != "" && cause == Ok ==> AloneInIqn(w.fs, TpgOf(t)) && LegibleLuns(w.fs, TpgOf(t)))
    && (code in {OK, Internal} ==>
          && (t.iqn != "" ==> TpgOf(t) !in w'.fs.tpgs && t.iqn !in w'.fs.iqns)
          && w'.st == DropPool(w.st, ToU16(id))
          && Saved(w.file, w'.st, w'.file, code == OK))
  }

  // CreateVolume.

  function NewVolume(inn: CreateVolumeRequest, id: u16): StateVolume {
    StateVolume(id, if inn.volumeName.Some? then inn.volumeName.value else Dec(id), 0, ToI64(inn.volumeSize))
  }

  /** What is registered: the given name or else the id in decimals, and the size as requested. */
  lemma NewEntries(pool: CreatePoolRequest, volume: CreateVolumeRequest, id: u16)
    ensures var p := NewPool(pool, id);
      && p.id == id && p.volumes == map[]
      && (pool.poolName.Some? ==> p.name == pool.poolName.value)
      && (pool.poolName.None? ==> ParseUint(p.name, U16_LIMIT) == Some(id))
    ensures var v := NewVolume(volume, id);
      && v.id == id && ToU64(v.size) == volume.volumeSize
      && (volume.volumeName.Some? ==> v.name == volume.volumeName.value)
      && (volume.volumeName.None? ==> ParseUint(v.name, U16_LIMIT) == Some(id))
  {
    ParseOfDec(id, U16_LIMIT);
    SizeComesBack(volume.volumeSize);
  }

  /** The check under the lock, within the one pool; again the compared name is still empty. */
  predicate VolumeConflict(pool: StatePool, id: u16) {
    exists v | v in pool.volumes :: pool.volumes[v].id == id || pool.volumes[v].name == ""
  }

  function DeviceOf(volume: StateVolume): DevPath {
    DevPath(HbaName(FILEIO, volume.id), volume.name)
  }

  function FileOf(c: ServerConfig, pool: StatePool, volume: StateVolume): string {
    ImagePath(c.volumesDir, pool.name, volume.name)
  }

  function LinkOf(c: ServerConfig, pool: StatePool, volume: StateVolume): LinkPath {
    LinkPath(LunOf(TargetOf(c, pool), volume.id), volume.name)
  }

  /** Some of the disk file, the backstore (with size 0) and the exported LUN were made. */
  ghost predicate VolumePut(c: ServerConfig, a: Fs, b: Fs, pool: StatePool, volume: StateVolume) {
    var d, f, x := DeviceOf(volume), FileOf(c, pool, volume), LinkOf(c, pool, volume);
    && b == a.(files := b.files, statFaults := b.statFaults, hbas := b.hbas, devs := b.devs,
               root := b.root, iqns := b.iqns, tpgs := b.tpgs, luns := b.luns, links := b.links)
    && FileTouched(a, a.(files := b.files, statFaults := b.statFaults), f, volume.size)
    && BackstorePut(a, a.(hbas := b.hbas, devs := b.devs), d, f, 0)
    && LunPut(a, a.(root := b.root, iqns := b.iqns, tpgs := b.tpgs, luns := b.luns, links := b.links), x, d)
  }

  /** File, backstore and LUN were made in that order: the backstore is not touched before the
      file is large enough, nor the target before the backstore is set up. */
  ghost predicate MadeInOrder(c: ServerConfig, a: Fs, b: Fs, pool: StatePool, volume: StateVolume) {
    var d, f := DeviceOf(volume), FileOf(c, pool, volume);
    && (b.hbas != a.hbas || b.devs != a.devs ==> f in b.files && b.Length(f) >= volume.size)
    && (b.tpgs != a.tpgs || b.luns != a.luns || b.links != a.links || b.iqns != a.iqns || b.root != a.root ==>
          d in b.devs && DevSet(b.devs[d], f, 0))
  }

  /** The steps of a create: each starts only when the one before it is done. */
  lemma VolumePutInSteps(c: ServerConfig, a: Fs, f1: Fs, f2: Fs, b: Fs, pool: StatePool, volume: StateVolume)
    requires var d, f := DeviceOf(volume), FileOf(c, pool, volume);
      && FileTouched(a, f1, f, volume.size)
      && (f2 == f1 || (f in f1.files && f1.Length(f) >= volume.size && BackstorePut(f1, f2, d, f, 0)))
      && (b == f2 || (d in f2.devs && DevSet(f2.devs[d], f, 0) && LunPut(f2, b, LinkOf(c, pool, volume), d)))
    ensures VolumePut(c, a, b, pool, volume) && MadeInOrder(c, a, b, pool, volume)
  {
    hide DeviceOf, FileOf, LinkOf, DevSet, Zeros;
  }

  /** All of it was made. */
  ghost predicate VolumeMade(c: ServerConfig, a: Fs, b: Fs, pool: StatePool, volume: StateVolume) {
    var d, f, x := DeviceOf(volume), FileOf(c, pool, volume), LinkOf(c, pool, volume);
    && f in b.files && b.Length(f) >= volume.size
    && (a.Length(f) < volume.size ==> b.files == a.files[f := Zeros(volume.size)])
    && d in b.devs && DevSet(b.devs[d], f, 0) && SerialSet(a, b, d)
    && x.lun in b.luns && x in b.links
  }

  /** `id` is the id the call works with, 0 when it found none.  A call that crashes has no
      reply: it ends the process. */
  ghost predicate CreateVolumeOutcome(
      c: ServerConfig, w: World, inn: CreateVolumeRequest, id: u16, w': World, res: VolumeInfo, code: Code) {
    var p := ToU16(inn.poolId);
    var volume := NewVolume(inn, id);
    && code in {InvalidArgument, FailedPrecondition, ResourceExhausted, AlreadyExists, Aborted, Crashed, OK, Internal}
    && w'.fs.Wf()
    && (code in {FailedPrecondition, ResourceExhausted} ==> w' == w)
    && (id == 0 || inn.volumeSize < 1 ==> w' == w && code in {InvalidArgument, FailedPrecondition, ResourceExhausted})
    && (code == InvalidArgument && id != 0 && inn.volumeSize >= 1 ==>
          w' == w.(st := Bump(w.st, id)) && p !in w.st.pools)
    && (code == AlreadyExists ==>
          && w' == w.(st := Bump(w.st, id))
          && p in w.st.pools && VolumeConflict(w.st.pools[p], id))
    && (code in {Aborted, Crashed, OK, Internal} ==>
          && id != 0 && inn.volumeSize >= 1
          && p in w.st.pools && !VolumeConflict(w.st.pools[p], id)
          && VolumePut(c, w.fs, w'.fs, w.st.pools[p], volume)
          && MadeInOrder(c, w.fs, w'.fs, w.st.pools[p], volume))
    && (code in {Aborted, Crashed} ==> w'.st == Bump(w.st, id) && w'.file == w.file)
    && (code == Crashed ==> volume.name == "")
    && (code in {OK, Internal} ==>
          && volume.name != ""
          && VolumeMade(c, w.fs, w'.fs, w.st.pools[p], volume)
          && w'.st == PutVolume(Bump(w.st, id), p, volume)
          && Saved(w.file, w'.st, w'.file, code == OK)
          && res == VolumeInfo(inn.poolId, id, Active, volume.name, inn.volumeSize, Iqn(c.baseIqn,
              w.st.pools[p].name), id))
  }

  // DeleteVolume.

  /** The registered volume the call is about, if any. */
  function Registered(s: State, p: u16, v: u16): Option<StateVolume> {
    if p in s.pools && v in s.pools[p].volumes then Some(s.pools[p].volumes[v]) else None
  }

  /** The backstore is not touched before the LUN is gone. */
  ghost predicate VolumeCut(a: Fs, b: Fs, l: LunPath, hba: string) {
    && b == a.(luns := b.luns, links := b.links, hbas := b.hbas, devs := b.devs, files := b.files)
    && LunCut(a, a.(luns := b.luns, links := b.links), l)
    && HbaCut(a, a.(hbas := b.hbas, devs := b.devs), hba)
    && (b.hbas != a.hbas || b.devs != a.devs ==> l !in b.luns)
  }

  /** `t` is the target, and `kind` the type of the backstore, found before the lock was taken;
      `cause` is what stopped the kernel's part.  A removal is refused only when another LUN
      links to the backstore. */
  ghost predicate DeleteVolumeOutcome(
      c: ServerConfig, w: World, inn: DeleteVolumeRequest, t: Target, kind: string, w': World, code: Code, cause: Err)
  {
    var p, v := ToU16(inn.poolId), ToU16(inn.volumeId);
    var l, hba := LunOf(t, v), HbaName(kind, v);
    && code in {Aborted, OK, Internal}
    && cause in {Ok, Busy, Fault}
    && (code == Aborted <==> cause != Ok)
    && w'.fs.Wf()
    && VolumeCut(w.fs, w'.fs, l, hba)
    && (OnlyLinksFrom(w.fs, hba, l) ==> cause in {Ok, Fault})
    && (cause == Ok ==> OnlyLinksFrom(w.fs, hba, l))
    && (code == Aborted ==> w'.fs.files == w.fs.files && w'.st == w.st && w'.file == w.file)
    && (code in {OK, Internal} ==>
          && l !in w'.fs.luns && hba !in w'.fs.hbas
          && w'.fs.files ==
               (match Registered(w.st, p, v)
                case None => w.fs.files
                case Some(volume) => w.fs.files - {FileOf(c, w.st.pools[p], volume)})
          && w'.st == (if p in w.st.pools then DropVolume(w.st, w.st.pools[p].id, v) else w.st)
          && Saved(w.file, w'.st, w'.file, code == OK))
  }
}
