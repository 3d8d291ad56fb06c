/** What the calls promise about the registry, the disk and the ids: all or nothing, undone
    when aborted, ids that are fresh, a delete that takes back a create, and exactly when the
    code falls short of that. */
module Guarantees {
  import opened Types
  import opened Names
  import opened KernelTree
  import opened Frames
  import opened Convergence
  import opened Registry
  import opened Outcomes
  import opened Recovery
  import opened SigmaServer

  // All or nothing.

  /** Whatever the reply, a call other than one answered OK or Internal leaves every pool and
      volume as it was, and an OK means the file holds the registry. */
  lemma AllOrNothing(c: ServerConfig, w: World, w': World, code: Code)
    requires || (exists inn, id, res :: CreatePoolOutcome(c, w, inn, id, w', res, code))
             || (exists id, t, cause :: DeletePoolOutcome(c, w, id, t, w', code, cause))
             || (exists inn, id, res :: CreateVolumeOutcome(c, w, inn, id, w', res, code))
             || (exists inn, t, kind, cause :: DeleteVolumeOutcome(c, w, inn, t, kind, w', code, cause))
    ensures code !in {OK, Internal} ==> w'.st.pools == w.st.pools && w'.file == w.file
    ensures code == OK ==> w'.file == Holds(w'.st)
    ensures code == Internal ==> w'.file == w.file || w'.file == Torn
    ensures w'.st.maxLunId >= w.st.maxLunId
  {
    hide TpgOf, LunOf, HbaName, TargetPut, TargetCut, VolumePut, MadeInOrder, VolumeMade, VolumeCut, PoolConflict,
      VolumeConflict, LegibleLuns, AloneInIqn, OnlyLinksFrom, Fs.Wf;
  }

  // Aborted calls.

  /** The disk files the goal names have the same bytes in both trees. */
  ghost predicate SameGoalFiles(a: Fs, b: Fs, g: Goal) {
    forall d | d in g.devs :: g.devs[d] in a.files && g.devs[d] in b.files && a.files[g.devs[d]] == b.files[g.devs[d]]
  }

  /** A reconcile after the goal's files were large enough ends in the view they determine. */
  lemma ReconcileRestores(a: Fs, b: Fs, d: Fs, g: Goal)
    requires g.Wf() && Converged(a, g) && SameGoalFiles(a, b, g)
    requires Toward(b, d, g) && Converged(d, g) && Answered(b, d, g)
    ensures ViewOf(d, g.base) == ViewOf(a, g.base)
    ensures d.files == b.files
  {
    hide TowardTargets, TowardLuns, TowardDevs, ViewOf, Desired;
    LargeFilesStay(b, d, g);
    DesiredFollowsGoalFiles(a, d, g);
  }

  lemma DesiredFollowsGoalFiles(a: Fs, b: Fs, g: Goal)
    requires SameGoalFiles(a, b, g)
    ensures Desired(g, a) == Desired(g, b)
  {
    assert WantedDevs(g, a) == WantedDevs(g, b);
  }

  /** A complete reconcile toward the registry led from `a` to `b`, and its stats were answered. */
  ghost predicate ReconciledTo(c: ServerConfig, a: Fs, b: Fs, s: State) {
    WellFormed(c, s) && Toward(a, b, GoalOf(c, s)) && Converged(b, GoalOf(c, s)) && Answered(a, b, GoalOf(c, s))
  }

  lemma HealthyParts(c: ServerConfig, w: World)
    requires Healthy(c, w)
    ensures w.fs.Wf() && WellFormed(c, w.st) && WellKeyed(w.st) && GoalOf(c, w.st).Wf() &&
            Managed(w.fs, GoalOf(c, w.st))
    ensures GoalOf(c, w.st).base == c.baseIqn
  {
    hide WellFormed, Tidy, Clear, GoalOf, Managed, Goal.Wf;
    ClearFromParts(c, w.fs, w.st);
    HealthyIsManaged(c, w.fs, w.st);
    WellFormedParts(c, w.st);
    TidyParts(c.baseIqn, w.fs);
    GoalBase(c, w.st);
  }

  /** An aborted call on a converged kernel is undone by the next complete reconcile: what it
      had made so far is gone and what it had removed so far is back, byte for byte. */
  lemma AbortedPoolCallIsUndone(c: ServerConfig, w: World, w': World, after: Fs)
    requires Healthy(c, w) && Converged(w.fs, GoalOf(c, w.st))
    requires || (exists inn, id, res :: CreatePoolOutcome(c, w, inn, id, w', res, Aborted))
             || (exists id, t, cause :: DeletePoolOutcome(c, w, id, t, w', Aborted, cause))
    requires ReconciledTo(c, w'.fs, after, w'.st)
    ensures w'.st == w.st
    ensures ViewOf(after, c.baseIqn) == ViewOf(w.fs, c.baseIqn) && after.files == w.fs.files
  {
    hide Healthy, Toward, Converged, Answered, WellFormed, Managed, TpgOf, GoalOf, Fs.Wf, Goal.Wf,
      PoolConflict, LegibleLuns, AloneInIqn;
    HealthyParts(c, w);
    ConvergedFiles(w.fs, w'.fs, GoalOf(c, w.st));
    ReconcileRestores(w.fs, w'.fs, after, GoalOf(c, w.st));
  }

  lemma ConvergedFiles(a: Fs, b: Fs, g: Goal)
    requires Converged(a, g) && a.files == b.files
    ensures SameGoalFiles(a, b, g)
  {
  }

  /** An aborted create vanishes from the view; the volume's disk file may stay behind, and no
      other file has changed. */
  lemma AbortedCreateVolumeIsUndone(
      c: ServerConfig, w: World, inn: CreateVolumeRequest, id: u16, w': World, res: VolumeInfo, after: Fs)
    requires Healthy(c, w) && Converged(w.fs, GoalOf(c, w.st))
    requires FreshVolumeCall(c, w, inn, id) && CreateVolumeOutcome(c, w, inn, id, w', res, Aborted)
    requires ReconciledTo(c, w'.fs, after, w'.st)
    ensures w'.st == Bump(w.st, id) && GoalOf(c, w'.st) == GoalOf(c, w.st)
    ensures ViewOf(after, c.baseIqn) == ViewOf(w.fs, c.baseIqn)
    ensures SameGoalFiles(w.fs, after, GoalOf(c, w.st))
    ensures var f := FileOf(c, w.st.pools[ToU16(inn.poolId)], NewVolume(inn, id));
            after.files - {f} == w.fs.files - {f}
  {
    hide Healthy, Toward, Converged, Answered, WellFormed, Managed, GoalOf, Fs.Wf, Goal.Wf, VolumePut,
      NewVolume, VolumeConflict,
      ViewOf, FreshVolume, OwnExport, FileOf;
    HealthyParts(c, w);
    var g, p := GoalOf(c, w.st), ToU16(inn.poolId);
    SamePoolsSameGoal(c, w.st, w'.st);
    ConvergedFiles(w.fs, w.fs, g);
    OnlyNewFile(c, w.fs, w'.fs, w.st, p, NewVolume(inn, id));
    OtherFilesStay(c, w.fs, w'.fs, w.st.pools[p], NewVolume(inn, id));
    ReconcileRestores(w.fs, w'.fs, after, g);
  }

  lemma OtherFilesStay(c: ServerConfig, a: Fs, b: Fs, pool: StatePool, volume: StateVolume)
    requires VolumePut(c, a, b, pool, volume)
    ensures forall f | f in a.files && f != FileOf(c, pool, volume) :: f in b.files && b.files[f] == a.files[f]
    ensures b.files - {FileOf(c, pool, volume)} == a.files - {FileOf(c, pool, volume)}
  {
    hide ImagePath, LunPut, BackstorePut, HbaName, TpgOf, LunName, Zeros;
  }

  lemma GoalFileIsVolume(c: ServerConfig, s: State, d: DevPath)
    requires WellFormed(c, s) && d in GoalOf(c, s).devs
    ensures exists k :: k in VolKeys(s) && GoalOf(c, s).devs[d] == VolFile(c, s, k)
  {
    hide VolKeys, VolDev, VolFile, WantDevs, WantLuns, WantTpgs, WantFloors, WellKeyed, NamesApart, IdsApart,
      FilesApart, VolumesNamed;
    var k :| k in VolKeys(s) && d == VolDev(s, k);
  }

  lemma OnlyNewFile(c: ServerConfig, a: Fs, b: Fs, s: State, p: u16, volume: StateVolume)
    requires WellFormed(c, s) && p in s.pools && FreshVolume(c, s, p, volume)
    requires VolumePut(c, a, b, s.pools[p], volume) && SameGoalFiles(a, a, GoalOf(c, s))
    ensures SameGoalFiles(a, b, GoalOf(c, s))
  {
    hide WellFormed, VolumePut, GoalOf, FileOf, VolKeys, VolFile;
    OtherFilesStay(c, a, b, s.pools[p], volume);
    var g := GoalOf(c, s);
    forall d | d in g.devs ensures g.devs[d] in b.files && a.files[g.devs[d]] == b.files[g.devs[d]] {
      GoalFileIsVolume(c, s, d);
    }
  }

  /** A delete that aborts keeps the volume's entry and bytes, and the next complete reconcile
      exports those bytes again. */
  lemma AbortedDeleteLosesNothing(
      c: ServerConfig, w: World, inn: DeleteVolumeRequest, t: Target, kind: string, w': World, cause: Err, after: Fs)
    requires Healthy(c, w) && Converged(w.fs, GoalOf(c, w.st))
    requires DeleteVolumeOutcome(c, w, inn, t, kind, w', Aborted, cause)
    requires ReconciledTo(c, w'.fs, after, w'.st)
    ensures w'.st == w.st && w'.fs.files == w.fs.files
    ensures after.files == w.fs.files && ViewOf(after, c.baseIqn) == ViewOf(w.fs, c.baseIqn)
  {
    hide Healthy, Toward, Converged, Answered, WellFormed, Managed, LunOf, HbaName, GoalOf, Fs.Wf, Goal.Wf,
      ImagePath, VolumeCut,
      OnlyLinksFrom;
    HealthyParts(c, w);
    ConvergedFiles(w.fs, w'.fs, GoalOf(c, w.st));
    ReconcileRestores(w.fs, w'.fs, after, GoalOf(c, w.st));
  }

  // Volume ids.

  /** No directory of a listed backstore has the allocated id. */
  lemma NextIdIsFreeInKernel(fs: Fs, backstores: seq<Backstore>, maxLunId: u16, id: u16)
    requires ScannedBackstores(fs, backstores) && NextAfter(backstores, maxLunId, id)
    ensures forall d | ListedDev(fs, d) :: ParseHba(d.hba).id != id
  {
    forall d | ListedDev(fs, d) ensures ParseHba(d.hba).id != id {
      assert Covered(fs, backstores, d.hba);
    }
  }

  /** An allocated id is new to the registry exactly when something was listed or the id 1,
      which the allocator falls back to, is not registered. */
  lemma NextIdIsFreshIff(s: State, backstores: seq<Backstore>, id: u16)
    requires Sound(s) && NextAfter(backstores, s.maxLunId, id)
    ensures (forall k | k in VolKeys(s) :: k.vol != id) <==>
            backstores != [] || forall k | k in VolKeys(s) :: k.vol != 1
  {
  }

  lemma VolumeIsWanted(c: ServerConfig, s: State, k: VolKey)
    requires WellFormed(c, s) && k in VolKeys(s)
    ensures VolDev(s, k) in GoalOf(c, s).devs
  {
    hide VolKeys, VolDev, WellFormed, GoalOf, HbaName;
    WellFormedParts(c, s);
    GoalParts(c, s);
  }

  /** On a converged kernel a scan that finds nothing means that no volume is registered. */
  lemma VolumeIsScanned(c: ServerConfig, fs: Fs, s: State, backstores: seq<Backstore>, k: VolKey)
    requires WellFormed(c, s) && Converged(fs, GoalOf(c, s)) && k in VolKeys(s)
    requires ScannedBackstores(fs, backstores)
    ensures backstores != []
  {
    hide WellFormed, Converged, GoalOf, VolKeys, HbaName;
    VolumeIsWanted(c, s, k);
    ConvergedSees(fs, GoalOf(c, s));
    assert Covered(fs, backstores, VolDev(s, k).hba);
  }

  /** On a converged kernel the allocated id is new to every pool. */
  lemma NextIdIsFresh(c: ServerConfig, fs: Fs, s: State, backstores: seq<Backstore>, id: u16)
    requires WellFormed(c, s) && Sound(s) && Converged(fs, GoalOf(c, s))
    requires ScannedBackstores(fs, backstores) && NextAfter(backstores, s.maxLunId, id)
    ensures forall k | k in VolKeys(s) :: k.vol != id
  {
    hide *;
    forall k | k in VolKeys(s) ensures backstores != [] && k.vol != id {
      VolumeIsScanned(c, fs, s, backstores, k);
      NextIdIsFreshIff(s, backstores, id);
    }
  }

  /** A create with an allocated id is refused as already existing exactly when nothing was
      scanned and the pool has a volume 1. */
  lemma AllocatedIdRefusedIff(s: State, backstores: seq<Backstore>, p: u16, id: u16)
    requires Sound(s) && VolumesNamed(s) && p in s.pools && NextAfter(backstores, s.maxLunId, id)
    ensures VolumeConflict(s.pools[p], id) <==> backstores == [] && 1 in s.pools[p].volumes
  {
    hide VolKeys;
    var pool := s.pools[p];
    forall v | v in pool.volumes ensures pool.volumes[v].name != "" && pool.volumes[v].id == v <= s.maxLunId {
      VolumeIsNamed(s, VolKey(p, v));
    }
    if 1 in pool.volumes { assert pool.volumes[1].id == 1; }
  }

  lemma VolumeIsNamed(s: State, k: VolKey)
    requires VolumesNamed(s) && k.pool in s.pools && k.vol in s.pools[k.pool].volumes
    ensures s.pools[k.pool].volumes[k.vol].name != ""
  {
    assert k in VolKeys(s) && VolOf(s, k) == s.pools[k.pool].volumes[k.vol];
  }

  // Creating a volume and deleting it again.

  lemma OnlyNewKind(c: ServerConfig, a: Fs, b: Fs, pool: StatePool, volume: StateVolume, kind: string)
    requires VolumePut(c, a, b, pool, volume) && VolumeMade(c, a, b, pool, volume)
    requires forall d | ListedDev(a, d) :: ParseHba(d.hba).id != volume.id
    requires KindFound(b, volume.id, kind)
    ensures kind == FILEIO
  {
    hide FileTouched, LunPut, ImagePath, TpgOf;
    assert ListedDev(b, DeviceOf(volume));
    if d :| ListedDev(b, d) && ParseHba(d.hba) == Hba(kind, volume.id) {
      assert d in a.devs ==> ListedDev(a, d);
    }
  }

  /** The kernel's side: what the delete removes is what the create made. */
  lemma UnmakeWhatWasMade(c: ServerConfig, a: Fs, b: Fs, d: Fs, pool: StatePool, volume: StateVolume)
    requires a.Wf() && b.Wf() && d.Wf() && FreeExport(c, a, pool, volume) && FileOf(c, pool, volume) !in a.files
    requires VolumePut(c, a, b, pool, volume) && VolumeMade(c, a, b, pool, volume)
    requires VolumeCut(b, d, LunOf(TargetOf(c, pool), volume.id), HbaName(FILEIO, volume.id))
    requires LunOf(TargetOf(c, pool), volume.id) !in d.luns && HbaName(FILEIO, volume.id) !in d.hbas
    requires d.files == b.files - {FileOf(c, pool, volume)}
    ensures d.luns == a.luns && d.links == a.links && d.devs == a.devs && d.files == a.files
    ensures d.tpgs == a.tpgs && d.portals == a.portals && d.iqns == a.iqns
  {
    hide HbaName, FileOf, TpgName, LunName, VolumePut, VolumeCut, VolumeMade, FreeExport, Fs.Wf, TpgOf;
    UnmakeLinks(c, a, b, d, pool, volume);
    UnmakeDevs(c, a, b, d, pool, volume);
    UnmakeFile(c, a, b, d, pool, volume);
  }

  lemma UnmakeFile(c: ServerConfig, a: Fs, b: Fs, d: Fs, pool: StatePool, volume: StateVolume)
    requires a.Wf() && FreeExport(c, a, pool, volume) && FileOf(c, pool, volume) !in a.files
    requires VolumePut(c, a, b, pool, volume)
    requires VolumeCut(b, d, LunOf(TargetOf(c, pool), volume.id), HbaName(FILEIO, volume.id))
    requires d.files == b.files - {FileOf(c, pool, volume)}
    ensures d.files == a.files && d.tpgs == a.tpgs && d.portals == a.portals && d.iqns == a.iqns
  {
    hide HbaName, FileOf, TpgName, LunName, BackstorePut, Zeros, TpgOf, LunCut, HbaCut;
  }

  lemma UnmakeLinks(c: ServerConfig, a: Fs, b: Fs, d: Fs, pool: StatePool, volume: StateVolume)
    requires a.Wf() && d.Wf() && FreeExport(c, a, pool, volume)
    requires VolumePut(c, a, b, pool, volume)
    requires VolumeCut(b, d, LunOf(TargetOf(c, pool), volume.id), HbaName(FILEIO, volume.id))
    requires LunOf(TargetOf(c, pool), volume.id) !in d.luns
    ensures d.luns == a.luns && d.links == a.links
  {
    hide HbaName, ImagePath, TpgOf, LunName, FileTouched, BackstorePut, TargetPut, Fs.Wf, LinksCut;
    CutUndoesLink(a, b, d, LinkOf(c, pool, volume), DeviceOf(volume));
  }

  lemma CutUndoesLink(a: Fs, b: Fs, d: Fs, x: LinkPath, dev: DevPath)
    requires a.Wf() && d.Wf() && x.lun !in a.luns && x.lun !in d.luns
    requires b.luns == a.luns || b.luns == a.luns + {x.lun}
    requires b.links == a.links || (x !in a.links && b.links == a.links[x := dev])
    requires d.luns == b.luns || d.luns == b.luns - {x.lun}
    requires LinksCut(b.links, d.links) && forall y | y in b.links && y !in d.links :: y.lun == x.lun
    ensures d.luns == a.luns && d.links == a.links
  {
    assert d.luns == a.luns;
    forall y: LinkPath ensures y in d.links <==> y in a.links {
      if y.lun == x.lun { assert y !in a.links && y !in d.links; }
    }
  }

  lemma UnmakeDevs(c: ServerConfig, a: Fs, b: Fs, d: Fs, pool: StatePool, volume: StateVolume)
    requires d.Wf() && FreeExport(c, a, pool, volume)
    requires VolumePut(c, a, b, pool, volume)
    requires VolumeCut(b, d, LunOf(TargetOf(c, pool), volume.id), HbaName(FILEIO, volume.id))
    requires HbaName(FILEIO, volume.id) !in d.hbas
    ensures d.devs == a.devs
  {
    hide HbaName, ImagePath, TpgName, LunName, FileTouched, LunPut;
    assert forall x :: x in d.devs <==> x in a.devs;
  }

  /** The delete finds the target and the type of backstore that the create used, and nothing
      but a fault can stop it. */
  lemma DeleteFindsCreated(
      c: ServerConfig, w: World, inn: CreateVolumeRequest, p: u16, id: u16, w1: World, res: VolumeInfo,
      t: Target, kind: string)
    requires Healthy(c, w) && FreshVolumeCall(c, w, inn, id) && CreateVolumeOutcome(c, w, inn, id, w1, res, OK)
    requires p == inn.poolId && p in w.st.pools
    requires t.id == p && TargetListed(w1.fs, c.baseIqn, t) && KindFound(w1.fs, id, kind)
    requires forall d | ListedDev(w.fs, d) :: ParseHba(d.hba).id != id
    ensures TpgOf(t) == TpgOf(TargetOf(c, w.st.pools[p])) && kind == FILEIO
    ensures OnlyLinksFrom(w1.fs, HbaName(FILEIO, id), LunOf(t, id))
  {
    hide *;
    CreatedFacts(c, w, inn, p, id, w1, res);
    CreateVolumeStaysHealthy(c, w, inn, id, w1, res, OK);
    KeepsPoolName(c, w.st, p, NewVolume(inn, id), id);
    TargetOfPool(c, w1, p, t);
    OnlyNewKind(c, w.fs, w1.fs, w.st.pools[p], NewVolume(inn, id), kind);
    NewlyRegistered(w.st, p, NewVolume(inn, id), id);
    OwnLinksOnly(c, w1, VolKey(p, id), t, kind);
  }

  lemma NewlyRegistered(s: State, p: u16, volume: StateVolume, id: u16)
    requires p in s.pools && volume.id == id
    ensures var t := PutVolume(Bump(s, id), p, volume);
            VolKey(p, id).pool in t.pools && VolKey(p, id).vol in t.pools[p].volumes
  {
  }

  lemma CreatedFacts(
      c: ServerConfig, w: World, inn: CreateVolumeRequest, p: u16, id: u16, w1: World, res: VolumeInfo)
    requires CreateVolumeOutcome(c, w, inn, id, w1, res, OK) && FreshVolumeCall(c, w, inn, id)
    requires p == inn.poolId && p in w.st.pools
    ensures w1.fs.Wf() && NewVolume(inn, id).id == id
    ensures FreshVolume(c, w.st, p, NewVolume(inn, id))
    ensures VolumePut(c, w.fs, w1.fs, w.st.pools[p], NewVolume(inn, id))
    ensures VolumeMade(c, w.fs, w1.fs, w.st.pools[p], NewVolume(inn, id))
    ensures w1.st == PutVolume(Bump(w.st, id), p, NewVolume(inn, id))
    ensures res.poolId == p && res.volumeId == id
  {
    hide VolumePut, MadeInOrder, VolumeMade, FreshVolume, OwnExport, VolumeConflict, Saved, Fs.Wf, PutVolume, Iqn;
  }

  lemma KeepsPoolName(c: ServerConfig, s: State, p: u16, volume: StateVolume, id: u16)
    requires p in s.pools
    ensures var t := PutVolume(Bump(s, id), p, volume);
            p in t.pools && PoolTpg(c, t, p) == TpgOf(TargetOf(c, s.pools[p]))
  {
    hide TpgName, Iqn;
  }

  lemma DeletedFacts(c: ServerConfig, w1: World, p: u16, id: u16, volume: StateVolume, t: Target, w2: World)
    requires DeleteVolumeOutcome(c, w1, DeleteVolumeRequest(p, id), t, FILEIO, w2, OK, Ok)
    requires p in w1.st.pools && w1.st.pools[p].id == p && Registered(w1.st, p, id) == Some(volume)
    ensures w2.fs.Wf()
    ensures VolumeCut(w1.fs, w2.fs, LunOf(t, id), HbaName(FILEIO, id))
    ensures LunOf(t, id) !in w2.fs.luns && HbaName(FILEIO, id) !in w2.fs.hbas
    ensures w2.fs.files == w1.fs.files - {FileOf(c, w1.st.pools[p], volume)}
    ensures w2.st == DropVolume(w1.st, p, id) && w2.file == Holds(w2.st)
  {
    hide LunOf, HbaName, VolumeCut, FileOf, Fs.Wf, DropVolume, Registered, OnlyLinksFrom;
  }

  /** Creating a volume with an allocated id where the kernel has nothing and with a disk file
      nobody has, then deleting it: only a fault can stop the delete, and when it is done it has
      restored pools, LUNs, links, backstores and disk files exactly; only the high-water mark
      has moved. */
  lemma CreateThenDelete(
      c: ServerConfig, w: World, inn: CreateVolumeRequest, backstores: seq<Backstore>, p: u16, id: u16, w1: World,
      res: VolumeInfo, t: Target, kind: string, w2: World, code: Code, cause: Err)
    requires Healthy(c, w) && p == inn.poolId && p in w.st.pools
    requires ScannedBackstores(w.fs, backstores) && NextAfter(backstores, w.st.maxLunId, id)
    requires FreshVolume(c, w.st, p, NewVolume(inn, id)) && FreeExport(c, w.fs, w.st.pools[p], NewVolume(inn, id))
    requires FileOf(c, w.st.pools[p], NewVolume(inn, id)) !in w.fs.files
    requires CreateVolumeOutcome(c, w, inn, id, w1, res, OK)
    requires t.id == p && TargetListed(w1.fs, c.baseIqn, t) && KindFound(w1.fs, id, kind)
    requires DeleteVolumeOutcome(c, w1, DeleteVolumeRequest(res.poolId, res.volumeId), t, kind, w2, code, cause)
    ensures code == Aborted ==> cause == Fault
    ensures code == OK ==>
      && w2.st == Bump(w.st, id) && w2.file == Holds(w2.st)
      && w2.fs.luns == w.fs.luns && w2.fs.links == w.fs.links && w2.fs.devs == w.fs.devs && w2.fs.files == w.fs.files
      && w2.fs.tpgs == w.fs.tpgs && w2.fs.portals == w.fs.portals && w2.fs.iqns == w.fs.iqns
  {
    hide *;
    var pool, volume := w.st.pools[p], NewVolume(inn, id);
    HealthyParts(c, w);
    SmallPool(inn, p);
    FreeCall(c, w, inn, p, id);
    CreatedFacts(c, w, inn, p, id, w1, res);
    NextIdIsFreeInKernel(w.fs, backstores, w.st.maxLunId, id);
    DeleteFindsCreated(c, w, inn, p, id, w1, res, t, kind);
    OnlyByFault(c, w1, DeleteVolumeRequest(p, id), t, w2, code, cause);
    if code == OK {
      SamePool(c, w.st, p, volume, id);
      DeletedFacts(c, w1, p, id, volume, t, w2);
      SameLun(t, TargetOf(c, pool), id);
      UnmakeWhatWasMade(c, w.fs, w1.fs, w2.fs, pool, volume);
    }
  }

  lemma FreeCall(c: ServerConfig, w: World, inn: CreateVolumeRequest, p: u16, id: u16)
    requires Healthy(c, w) && p == ToU16(inn.poolId) && p in w.st.pools
    requires FreshVolume(c, w.st, p, NewVolume(inn, id)) && FreeExport(c, w.fs, w.st.pools[p], NewVolume(inn, id))
    ensures FreshVolumeCall(c, w, inn, id)
  {
    hide WellFormed, Tidy, Clear, FreshVolume, FreeExport, OwnExport, NewVolume;
    FreeIsOwn(c, w.fs, w.st.pools[p], NewVolume(inn, id));
  }

  lemma SmallPool(inn: CreateVolumeRequest, p: u16)
    requires p == inn.poolId
    ensures p == ToU16(inn.poolId)
  {
  }

  lemma OnlyByFault(
      c: ServerConfig, w1: World, inn: DeleteVolumeRequest, t: Target, w2: World, code: Code, cause: Err)
    requires DeleteVolumeOutcome(c, w1, inn, t, FILEIO, w2, code, cause)
    requires inn.poolId < U16_LIMIT && inn.volumeId < U16_LIMIT
    requires OnlyLinksFrom(w1.fs, HbaName(FILEIO, inn.volumeId), LunOf(t, inn.volumeId))
    ensures code == Aborted ==> cause == Fault
    ensures code == OK ==> cause == Ok
  {
    hide LunOf, HbaName, VolumeCut, FileOf, Fs.Wf, DropVolume, Registered, OnlyLinksFrom;
  }

  lemma SameLun(t: Target, u: Target, id: u16)
    requires TpgOf(t) == TpgOf(u)
    ensures LunOf(t, id) == LunOf(u, id)
  {
    hide TpgOf, LunName;
  }

  lemma SamePool(c: ServerConfig, s: State, p: u16, volume: StateVolume, id: u16)
    requires p in s.pools && WellKeyed(s) && FreshVolume(c, s, p, volume) && volume.id == id
    ensures var t := PutVolume(Bump(s, id), p, volume);
      && p in t.pools && Registered(t, p, id) == Some(volume)
      && FileOf(c, t.pools[p], volume) == FileOf(c, s.pools[p], volume)
      && t.pools[p].id == p
      && DropVolume(t, p, id) == Bump(s, id)
  {
    hide ImagePath;
    var t := PutVolume(Bump(s, id), p, volume);
    NewInPool(s, p, id);
    assert DropVolume(t, p, id).pools[p].volumes == s.pools[p].volumes;
    assert DropVolume(t, p, id).pools == s.pools;
  }

  // On a converged kernel an unused file is all that an allocated id needs.

  lemma RegisteredFileIsThere(c: ServerConfig, fs: Fs, s: State, k: VolKey)
    requires WellFormed(c, s) && Converged(fs, GoalOf(c, s)) && k in VolKeys(s)
    ensures VolFile(c, s, k) in fs.files
  {
    hide WellFormed, GoalOf, Converged, VolKeys, VolDev, VolFile;
    WellFormedParts(c, s);
    GoalParts(c, s);
    ConvergedFiles(fs, fs, GoalOf(c, s));
    assert VolDev(s, k) in GoalOf(c, s).devs;
  }

  /** The allocated id is new to registry and kernel, and so is a disk file that is not there. */
  lemma AllocatedIsFree(
      c: ServerConfig, w: World, inn: CreateVolumeRequest, backstores: seq<Backstore>, p: u16, id: u16)
    requires Healthy(c, w) && Sound(w.st) && Converged(w.fs, GoalOf(c, w.st))
    requires p == ToU16(inn.poolId) && p in w.st.pools
    requires ScannedBackstores(w.fs, backstores) && NextAfter(backstores, w.st.maxLunId, id)
    requires FileOf(c, w.st.pools[p], NewVolume(inn, id)) !in w.fs.files
    ensures FreshVolume(c, w.st, p, NewVolume(inn, id)) && FreeExport(c, w.fs, w.st.pools[p], NewVolume(inn, id))
    ensures FreshVolumeCall(c, w, inn, id)
  {
    hide Healthy, WellFormed, GoalOf, Converged, VolKeys, VolFile, FileOf, FreeExport, ScannedBackstores,
      NewVolume, FreshVolumeCall;
    HealthyParts(c, w);
    VolumeIdIs(inn, id);
    NextIdIsFresh(c, w.fs, w.st, backstores, id);
    forall k | k in VolKeys(w.st) ensures VolFile(c, w.st, k) != FileOf(c, w.st.pools[p], NewVolume(inn, id)) {
      RegisteredFileIsThere(c, w.fs, w.st, k);
    }
    ConvergedLeavesRoomForVolume(c, w.fs, w.st, p, NewVolume(inn, id));
    FreeCall(c, w, inn, p, id);
  }

  /** An aborted create with an allocated id, for a file that is not there yet, leaves at most
      that file once the next reconcile is complete. */
  lemma AbortedAllocatedCreateIsUndone(
      c: ServerConfig, w: World, inn: CreateVolumeRequest, backstores: seq<Backstore>, p: u16, id: u16, w': World,
      res: VolumeInfo, after: Fs)
    requires Healthy(c, w) && Sound(w.st) && Converged(w.fs, GoalOf(c, w.st))
    requires p == ToU16(inn.poolId) && p in w.st.pools
    requires ScannedBackstores(w.fs, backstores) && NextAfter(backstores, w.st.maxLunId, id)
    requires FileOf(c, w.st.pools[p], NewVolume(inn, id)) !in w.fs.files
    requires CreateVolumeOutcome(c, w, inn, id, w', res, Aborted) && ReconciledTo(c, w'.fs, after, w'.st)
    ensures w'.st == Bump(w.st, id) && GoalOf(c, w'.st) == GoalOf(c, w.st)
    ensures ViewOf(after, c.baseIqn) == ViewOf(w.fs, c.baseIqn)
    ensures after.files - {FileOf(c, w.st.pools[p], NewVolume(inn, id))} == w.fs.files
  {
    hide *;
    AllocatedIsFree(c, w, inn, backstores, p, id);
    AbortedCreateVolumeIsUndone(c, w, inn, id, w', res, after);
    var f := FileOf(c, w.st.pools[p], NewVolume(inn, id));
    assert w.fs.files - {f} == w.fs.files;
  }

  /** Likewise a create with an allocated id is taken back by a delete. */
  lemma AllocatedCreateThenDelete(
      c: ServerConfig, w: World, inn: CreateVolumeRequest, backstores: seq<Backstore>, p: u16, id: u16, w1: World,
      res: VolumeInfo, t: Target, kind: string, w2: World, code: Code, cause: Err)
    requires Healthy(c, w) && Sound(w.st) && Converged(w.fs, GoalOf(c, w.st))
    requires p == inn.poolId && p in w.st.pools
    requires ScannedBackstores(w.fs, backstores) && NextAfter(backstores, w.st.maxLunId, id)
    requires FileOf(c, w.st.pools[p], NewVolume(inn, id)) !in w.fs.files
    requires CreateVolumeOutcome(c, w, inn, id, w1, res, OK)
    requires t.id == p && TargetListed(w1.fs, c.baseIqn, t) && KindFound(w1.fs, id, kind)
    requires DeleteVolumeOutcome(c, w1, DeleteVolumeRequest(res.poolId, res.volumeId), t, kind, w2, code, cause)
    ensures code == Aborted ==> cause == Fault
    ensures code == OK ==> w2.st == Bump(w.st, id) && w2.file == Holds(w2.st)
    ensures code == OK ==> ViewOf(w2.fs, c.baseIqn) == ViewOf(w.fs, c.baseIqn) && w2.fs.files == w.fs.files
    ensures code == OK ==> Converged(w2.fs, GoalOf(c, w.st))
  {
    hide *;
    SmallPool(inn, p);
    AllocatedIsFree(c, w, inn, backstores, p, id);
    CreateThenDelete(c, w, inn, backstores, p, id, w1, res, t, kind, w2, code, cause);
    if code == OK {
      HealthyParts(c, w);
      SameViewAndFiles(w.fs, w2.fs, c.baseIqn);
      SameViewConverged(w.fs, w2.fs, GoalOf(c, w.st));
    }
  }

  lemma SameViewAndFiles(a: Fs, b: Fs, base: string)
    requires b.luns == a.luns && b.links == a.links && b.devs == a.devs && b.tpgs == a.tpgs && b.portals == a.portals
    ensures ViewOf(b, base) == ViewOf(a, base)
  {
  }

  lemma SameViewConverged(a: Fs, b: Fs, g: Goal)
    requires Converged(a, g) && ViewOf(b, g.base) == ViewOf(a, g.base) && b.files == a.files
    ensures Converged(b, g)
  {
    hide ViewOf;
    ConvergedFiles(a, b, g);
    DesiredFollowsGoalFiles(a, b, g);
  }

  /** Asked for by its id, a volume just created is reported with the name, size, target and LUN
      that the create reported, but as one of pool 0. */
  lemma GetTellsCreated(
      c: ServerConfig, w: World, inn: CreateVolumeRequest, id: u16, w': World, res: VolumeInfo, info: VolumeInfo)
    requires CreateVolumeOutcome(c, w, inn, id, w', res, OK)
    requires ToU16(inn.poolId) in w'.st.pools && InfoFrom(c, info, w'.st.pools[ToU16(inn.poolId)], Some(id))
    ensures info == res.(poolId := 0)
    ensures info.volumeSize == inn.volumeSize && info.volumeId == id && info.status == Active
  {
    hide VolumePut, MadeInOrder, VolumeMade, VolumeConflict, Saved, Fs.Wf, Iqn, Dec;
    SizeComesBack(inn.volumeSize);
  }

  // What the listings show after an upsert.

  /** What a successful `ListTargets` returns. */
  ghost predicate ListsTargets(fs: Fs, base: string, targets: seq<Target>) {
    && (forall p | Listed(fs, base, p) :: TargetAt(base, p) in targets)
    && (forall t | t in targets :: TargetListed(fs, base, t))
  }

  /** What a successful `ListLUNs` returns. */
  ghost predicate ListsLuns(fs: Fs, p: TpgPath, luns: seq<u16>) {
    && (forall l | l in fs.luns && l.tpg == p && ParseLun(l.lun).Num? :: ParseLun(l.lun).id in luns)
    && (forall n | n in luns :: LunListed(fs, p, n))
  }

  /** A complete upsert of a target adds exactly that target to the view and to the listing. */
  lemma UpsertShowsTarget(a: Fs, b: Fs, base: string, t: Target, before: seq<Target>, after: seq<Target>)
    requires Ours(base, t.iqn) && t.name == PoolNameOf(base, t.iqn)
    requires TargetPut(a, b, TpgOf(t)) && TpgOf(t) in b.tpgs && b.tpgs[TpgOf(t)] == EXPORTED
    requires ListsTargets(a, base, before) && ListsTargets(b, base, after)
    ensures ViewOf(b, base) == ViewOf(a, base).(tpgs := ViewOf(a, base).tpgs[TpgOf(t) := EXPORTED])
    ensures forall u :: u in after <==> u in before || u == t
  {
    hide Ours, PoolNameOf, ParseTpg, TpgName;
    var p := TpgOf(t);
    assert SeenTpgs(b, base) == SeenTpgs(a, base)[p := EXPORTED];
    assert SeenDevs(b) == SeenDevs(a);
    assert Listed(b, base, p) && TargetAt(base, p) == t;
    forall q | Listed(b, base, q) && q != p ensures Listed(a, base, q) {
    }
    forall q | Listed(a, base, q) ensures Listed(b, base, q) {
    }
  }

  /** A complete upsert of a LUN whose target is there adds exactly the LUN to view and listing
      and, unless the LUN had one of that name, the link to the view. */
  lemma UpsertShowsLun(
      a: Fs, b: Fs, base: string, t: Target, lun: u16, name: string, d: DevPath, before: seq<u16>, after: seq<u16>)
    requires Ours(base, t.iqn) && TpgOf(t) in a.tpgs
    requires var x := LinkPath(LunOf(t, lun), name); LunPut(a, b, x, d) && x.lun in b.luns && x in b.links
    requires ListsLuns(a, TpgOf(t), before) && ListsLuns(b, TpgOf(t), after)
    ensures var x := LinkPath(LunOf(t, lun), name);
            ViewOf(b, base) == ViewOf(a, base).(
              luns := ViewOf(a, base).luns + {x.lun},
              links := if x in a.links then ViewOf(a, base).links else ViewOf(a, base).links[x := d])
    ensures forall n :: n in after <==> n in before || n == lun
  {
    hide Ours, ParseHba, TpgName, LunName, ParseLun;
    var x := LinkPath(LunOf(t, lun), name);
    assert SeenLuns(b, base) == SeenLuns(a, base) + {x.lun};
    assert SeenLinks(b, base) == if x in a.links then SeenLinks(a, base) else SeenLinks(a, base)[x := d];
    assert SeenTpgs(b, base) == SeenTpgs(a, base);
    assert ParseLun(x.lun.lun) == Num(lun);
    forall n | n in after ensures n in before || n == lun {
      var l :| l in b.luns && l.tpg == TpgOf(t) && ParseLun(l.lun) == Num(n);
    }
    forall n | n in before ensures n in after {
      var l :| l in a.luns && l.tpg == TpgOf(t) && ParseLun(l.lun) == Num(n);
    }
  }

  /** A complete upsert of a backstore adds exactly that backstore to the view; where every
      directory has one device at most, also to the listing. */
  lemma UpsertShowsBackstore(
      a: Fs, b: Fs, base: string, backstore: Backstore, size: int, before: seq<Backstore>, after: seq<Backstore>)
    requires backstore.kind == FILEIO
    requires var d := DevOf(backstore);
             BackstorePut(a, b, d, backstore.filePath, size) && d in b.devs &&
                 DevSet(b.devs[d], backstore.filePath, size)
    requires TidyDevs(b) && ScannedBackstores(a, before) && ScannedBackstores(b, after)
    ensures var d := DevOf(backstore);
            ViewOf(b, base) == ViewOf(a, base).(
              devs := ViewOf(a, base).devs[d := DevView(backstore.filePath, size, true, true)])
    ensures forall u :: u in after <==> u in before || u == Backstore(FILEIO, backstore.id, backstore.name, "", 0)
  {
    hide HbaName, TidyDevs, ScannedBackstores, DevSet, ViewOf, BackstorePut;
    var d := DevOf(backstore);
    assert ParseHba(d.hba) == Hba(FILEIO, backstore.id);
    assert BackstoreAt(d) == Backstore(FILEIO, backstore.id, backstore.name, "", 0);
    PutBackstoreView(a, b, base, d, backstore.filePath, size);
    OneListedEach(a, b, before);
    OneListedEach(b, b, after);
    PutBackstoreListed(a, b, d, backstore.filePath, size);
  }

  lemma PutBackstoreView(a: Fs, b: Fs, base: string, d: DevPath, file: string, size: int)
    requires Listable(d) && BackstorePut(a, b, d, file, size) && d in b.devs && DevSet(b.devs[d], file, size)
    ensures ViewOf(b, base) == ViewOf(a, base).(devs := ViewOf(a, base).devs[d := DevView(file, size, true, true)])
    ensures a.devs.Keys <= b.devs.Keys
  {
    hide Ours, ParseHba;
    assert SeenDevs(b) == SeenDevs(a)[d := DevView(file, size, true, true)];
  }

  lemma PutBackstoreListed(a: Fs, b: Fs, d: DevPath, file: string, size: int)
    requires Listable(d) && BackstorePut(a, b, d, file, size) && d in b.devs
    ensures forall o :: ListedDev(b, o) <==> ListedDev(a, o) || o == d
  {
    hide ParseHba, DevSet;
  }

  /** In a tree with one device to a directory, or less than one, the listing has every device. */
  lemma OneListedEach(a: Fs, b: Fs, backstores: seq<Backstore>)
    requires TidyDevs(b) && a.devs.Keys <= b.devs.Keys && ScannedBackstores(a, backstores)
    ensures forall d | ListedDev(a, d) :: BackstoreAt(d) in backstores
    ensures forall u | u in backstores :: exists d :: ListedDev(a, d) && u == BackstoreAt(d)
  {
    hide ParseHba, BackstoreAt, ScannedBackstores, TidyDevs;
    forall d | ListedDev(a, d) ensures BackstoreAt(d) in backstores {
      OneIsListed(a, b, backstores, d);
    }
    EachIsListed(a, backstores);
  }

  lemma OneIsListed(a: Fs, b: Fs, backstores: seq<Backstore>, d: DevPath)
    requires TidyDevs(b) && a.devs.Keys <= b.devs.Keys && ScannedBackstores(a, backstores) && ListedDev(a, d)
    ensures BackstoreAt(d) in backstores
  {
    hide ParseHba, CanonHba, BackstoreAt;
    assert Covered(a, backstores, d.hba);
    var o :| ListedDev(a, o) && o.hba == d.hba && BackstoreAt(o) in backstores;
    assert o == d;
  }

  lemma EachIsListed(a: Fs, backstores: seq<Backstore>)
    requires ScannedBackstores(a, backstores)
    ensures forall u | u in backstores :: exists d :: ListedDev(a, d) && u == BackstoreAt(d)
  {
    hide ParseHba, BackstoreAt, Covered;
    forall u | u in backstores ensures exists d :: ListedDev(a, d) && u == BackstoreAt(d) {
      assert BackstoreListed(a, u);
    }
  }
}
