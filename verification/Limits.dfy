/** Where the server falls short of what it means to do, with the exact condition under which
    it does not. */
module Limits {
  import opened Types
  import opened Names
  import opened KernelTree
  import opened Frames
  import opened Convergence
  import opened Registry
  import opened Outcomes
  import opened Recovery
  import opened Runs
  import opened SigmaServer
  import Guarantees
  import K8sProvisioner
  import Reconciler
  import Steps

  // Pool names.

  /** The check before a pool is added never compares the requested name: it looks for the id
      and, when a name is given, for a pool without a name. */
  lemma NamesAreNotChecked(s: State, inn: CreatePoolRequest, id: u16)
    requires WellKeyed(s)
    ensures PoolConflict(s, inn, id) <==>
            id in s.pools || (inn.poolName.Some? && exists p :: p in s.pools && s.pools[p].name == "")
  {
    if id in s.pools { assert s.pools[id].id == id; }
    if p :| p in s.pools && s.pools[p].name == "" { assert inn.poolName.Some? ==> PoolConflict(s, inn, id); }
  }

  /** So names stay apart exactly when the request brings a new one. */
  lemma NamesStayApartIffNew(s: State, pool: StatePool)
    requires NamesApart(s) && pool.id !in s.pools
    ensures NamesApart(PutPool(s, pool)) <==> forall p | p in s.pools :: s.pools[p].name != pool.name
  {
    var t := PutPool(s, pool);
    forall p | p in s.pools && s.pools[p].name == pool.name ensures !NamesApart(t) {
      assert t.pools[p].name == t.pools[pool.id].name;
    }
  }

  lemma DuplicateNameGoesThrough()
    ensures var s, inn := State(0, map[1 := StatePool(1, "data", map[])]), CreatePoolRequest(None, Some("data"));
            NamesApart(s) && !PoolConflict(s, inn, 2) && !NamesApart(PutPool(s, NewPool(inn, 2)))
  {
    var s, inn := State(0, map[1 := StatePool(1, "data", map[])]), CreatePoolRequest(None, Some("data"));
    assert 1 in s.pools;
    NamesStayApartIffNew(s, NewPool(inn, 2));
  }

  // Volume ids.

  /** The check before a volume is added sees its own pool only, so ids stay apart exactly when
      no other pool has the id. */
  lemma IdsStayApartIffNew(s: State, p: u16, volume: StateVolume)
    requires IdsApart(s) && p in s.pools && volume.id !in s.pools[p].volumes
    ensures IdsApart(PutVolume(s, p, volume)) <==> forall k | k in VolKeys(s) :: k.vol != volume.id
  {
    hide VolKeys;
    NewKeysOfVolume(s, p, volume);
    NotInPool(s, p, volume.id);
    var t, n := PutVolume(s, p, volume), VolKey(p, volume.id);
    forall k | k in VolKeys(s) && k.vol == volume.id ensures !IdsApart(t) {
      assert k in VolKeys(t) && n in VolKeys(t) && k != n;
    }
  }

  lemma NotInPool(s: State, p: u16, id: u16)
    requires p in s.pools && id !in s.pools[p].volumes
    ensures VolKey(p, id) !in VolKeys(s)
  {
  }

  /** The check never compares the requested name either: it looks for the id in the pool, and
      for a volume without a name. */
  lemma VolumeNamesAreNotChecked(s: State, p: u16, id: u16)
    requires WellKeyed(s) && p in s.pools
    ensures var volumes := s.pools[p].volumes;
            VolumeConflict(s.pools[p], id) <==> id in volumes || exists v :: v in volumes && volumes[v].name == ""
  {
    var volumes := s.pools[p].volumes;
    if id in volumes { assert volumes[id].id == id; }
    if v :| v in volumes && volumes[v].name == "" { assert VolumeConflict(s.pools[p], id); }
  }

  /** A second volume of the same name in its pool goes through, and shares the first one's file. */
  lemma DuplicateVolumeNameGoesThrough(c: ServerConfig)
    ensures var s := State(1, map[1 := StatePool(1, "data", map[1 := StateVolume(1, "v", 0, 1)])]);
            var volume := NewVolume(CreateVolumeRequest(1, None, Some("v"), 1), 2);
            FilesApart(c, s) && !VolumeConflict(s.pools[1], 2) && !FilesApart(c, PutVolume(Bump(s, 2), 1, volume))
  {
    hide ImagePath;
    var s := State(1, map[1 := StatePool(1, "data", map[1 := StateVolume(1, "v", 0, 1)])]);
    var volume := NewVolume(CreateVolumeRequest(1, None, Some("v"), 1), 2);
    assert 1 in s.pools && 1 in s.pools[1].volumes;
    assert VolKey(1, 1) in VolKeys(s) && forall k | k in VolKeys(s) :: k == VolKey(1, 1);
    BumpKeys(s, 2);
    assert VolFile(c, Bump(s, 2), VolKey(1, 1)) == FileOf(c, s.pools[1], volume);
    FilesStayApartIffNew(c, Bump(s, 2), 1, volume);
  }

  /** An explicit id that another pool already uses goes through. */
  lemma IdOfAnotherPoolGoesThrough()
    ensures var s := State(1, map[1 := StatePool(1, "a", map[]), 2 := StatePool(2, "b", map[1 := StateVolume(1,
            "v", 0, 1)])]);
            var volume := NewVolume(CreateVolumeRequest(1, Some(1), Some("w"), 1), 1);
            IdsApart(s) && !VolumeConflict(s.pools[1], 1) && !IdsApart(PutVolume(Bump(s, 1), 1, volume))
  {
    var s := State(1, map[1 := StatePool(1, "a", map[]), 2 := StatePool(2, "b", map[1 := StateVolume(1, "v", 0, 1)])]);
    var volume := NewVolume(CreateVolumeRequest(1, Some(1), Some("w"), 1), 1);
    assert 2 in s.pools && 1 in s.pools[2].volumes;
    assert VolKey(2, 1) in VolKeys(s) && forall k | k in VolKeys(s) :: k == VolKey(2, 1);
    BumpKeys(s, 1);
    assert IdsApart(Bump(s, 1));
    IdsStayApartIffNew(Bump(s, 1), 1, volume);
  }

  /** Two volumes with one id share a backstore directory, whatever their pools. */
  lemma SameIdSameDirectory(s: State, j: VolKey, k: VolKey)
    requires WellKeyed(s) && j in VolKeys(s) && k in VolKeys(s)
    ensures VolDev(s, j).hba == VolDev(s, k).hba <==> j.vol == k.vol
  {
    assert ParseHba(VolDev(s, j).hba) == Hba(FILEIO, j.vol) && ParseHba(VolDev(s, k).hba) == Hba(FILEIO, k.vol);
  }

  // Disk files.

  /** Two volumes share a disk file exactly when their names, joined by a dash, are equal. */
  lemma ImagePathsMeetIff(dir: string, p: string, v: string, q: string, w: string)
    ensures ImagePath(dir, p, v) == ImagePath(dir, q, w) <==> p + "-" + v == q + "-" + w
  {
    var a, b := p + "-" + v, q + "-" + w;
    ImagePathIs(dir, p, v);
    ImagePathIs(dir, q, w);
    if ImagePath(dir, p, v) == ImagePath(dir, q, w) {
      var n := |dir + "/"|;
      assert a == ImagePath(dir, p, v)[n..n + |a|];
      assert b == ImagePath(dir, q, w)[n..n + |b|];
    }
  }

  lemma ImagePathIs(dir: string, p: string, v: string)
    ensures ImagePath(dir, p, v) == (dir + "/") + (p + "-" + v) + ".img"
  {
  }

  lemma SharedDiskFile(dir: string)
    ensures ImagePath(dir, "a-b", "c") == ImagePath(dir, "a", "b-c")
  {
    ImagePathsMeetIff(dir, "a-b", "c", "a", "b-c");
    assert "a-b" + "-" + "c" == "a" + "-" + "b-c";
  }

  lemma FirstDash(p: string, v: string)
    requires '-' !in p
    ensures (p + "-" + v)[|p|] == '-' && forall i | 0 <= i < |p| :: (p + "-" + v)[i] != '-'
  {
    forall i | 0 <= i < |p| ensures (p + "-" + v)[i] != '-' { assert p[i] in p; }
  }

  /** Pool names without a dash keep the disk files apart. */
  lemma DashFreePoolsKeepFilesApart(dir: string, p: string, v: string, q: string, w: string)
    requires '-' !in p && '-' !in q
    ensures ImagePath(dir, p, v) == ImagePath(dir, q, w) <==> p == q && v == w
  {
    ImagePathsMeetIff(dir, p, v, q, w);
    FirstDash(p, v);
    FirstDash(q, w);
    var a, b := p + "-" + v, q + "-" + w;
    assert p == a[..|p|] && v == a[|p| + 1..];
    assert q == b[..|q|] && w == b[|q| + 1..];
  }

  /** Disk files stay apart exactly when no volume has the new one's file. */
  lemma FilesStayApartIffNew(c: ServerConfig, s: State, p: u16, volume: StateVolume)
    requires FilesApart(c, s) && p in s.pools && volume.id !in s.pools[p].volumes
    ensures FilesApart(c, PutVolume(s, p, volume)) <==>
            forall k | k in VolKeys(s) :: VolFile(c, s, k) != FileOf(c, s.pools[p], volume)
  {
    hide VolKeys, VolFile, ImagePath;
    var t, n := PutVolume(s, p, volume), VolKey(p, volume.id);
    NewKeysOfVolume(s, p, volume);
    NotInPool(s, p, volume.id);
    forall k | k in VolKeys(s) ensures VolFile(c, t, k) == VolFile(c, s, k) { SameVolume(c, s, t, k); }
    NewFile(c, s, p, volume);
    forall k | k in VolKeys(s) && VolFile(c, s, k) == FileOf(c, s.pools[p], volume) ensures !FilesApart(c, t) {
      assert k in VolKeys(t) && n in VolKeys(t) && k != n;
    }
  }

  lemma NewFile(c: ServerConfig, s: State, p: u16, volume: StateVolume)
    requires p in s.pools && VolKey(p, volume.id) in VolKeys(PutVolume(s, p, volume))
    ensures VolFile(c, PutVolume(s, p, volume), VolKey(p, volume.id)) == FileOf(c, s.pools[p], volume)
  {
    hide ImagePath;
  }

  /** Deleting a volume keeps another volume's disk file exactly when the two do not share it. */
  lemma DeleteKeepsOtherFilesIffApart(
      c: ServerConfig, w: World, inn: DeleteVolumeRequest, t: Target, kind: string, w': World, code: Code,
      cause: Err, k: VolKey)
    requires DeleteVolumeOutcome(c, w, inn, t, kind, w', code, cause) && code in {OK, Internal}
    requires k in VolKeys(w.st) && VolFile(c, w.st, k) in w.fs.files
    requires VolKey(ToU16(inn.poolId), ToU16(inn.volumeId)) in VolKeys(w.st)
    ensures VolFile(c, w.st, k) in w'.fs.files <==>
            VolFile(c, w.st, k) != VolFile(c, w.st, VolKey(ToU16(inn.poolId), ToU16(inn.volumeId)))
  {
    hide VolumeCut, LunOf, HbaName, ImagePath, OnlyLinksFrom, Fs.Wf, Saved;
  }

  /** Without a listed target `DeletePool` works on the zero target, whose directory is the
      parent of all targets.  It can only be removed when there are none, so the pool is
      dropped from the registry only if the kernel has no target at all. */
  lemma UnlistedPoolDroppedIffNoTargets(c: ServerConfig, w: World, id: u32)
    requires w.fs.Wf()
    ensures (exists w' :: DeletePoolOutcome(c, w, id, ZERO_TARGET, w', OK, Ok)) <==> w.fs.iqns == {}
  {
    if w.fs.iqns == {} {
      var s := DropPool(w.st, ToU16(id));
      var w' := World(w.fs.(root := false), s, Holds(s));
      assert DeletePoolOutcome(c, w, id, ZERO_TARGET, w', OK, Ok);
    }
  }

  // New volumes.

  lemma NewVolumeFacts(
      c: ServerConfig, w: World, inn: CreateVolumeRequest, id: u16, w': World, res: VolumeInfo, code: Code)
    requires CreateVolumeOutcome(c, w, inn, id, w', res, code) && code in {OK, Internal}
    ensures var p, volume := ToU16(inn.poolId), NewVolume(inn, id);
      && p in w.st.pools
      && w'.fs.Wf()
      && w'.st == PutVolume(Bump(w.st, id), p, volume)
      && VolumeMade(c, w.fs, w'.fs, w.st.pools[p], volume)
  {
    hide VolumePut, MadeInOrder, VolumeMade, VolumeConflict, Fs.Wf, Saved, PutVolume, NewVolume;
  }

  lemma NewVolumeIsWanted(c: ServerConfig, s: State, p: u16, volume: StateVolume)
    requires p in s.pools && WellFormed(c, PutVolume(s, p, volume))
    ensures var t, f := PutVolume(s, p, volume), FileOf(c, s.pools[p], volume);
            var g := GoalOf(c, t);
      && g.Wf()
      && DeviceOf(volume) in g.devs && g.devs[DeviceOf(volume)] == f
      && f in g.floors && g.floors[f] == Max(GIB, volume.size)
  {
    hide ImagePath, HbaName, WantTpgs, WantLuns, NamesApart, IdsApart, FilesApart, VolumesNamed, WellKeyed, Goal.Wf;
    var t, k := PutVolume(s, p, volume), VolKey(p, volume.id);
    GoalIsWf(c, t);
    assert k.pool in t.pools && k.vol in t.pools[k.pool].volumes;
    assert k in VolKeys(t) && VolOf(t, k) == volume;
    assert VolDev(t, k) == DeviceOf(volume) && VolFile(c, t, k) == FileOf(c, s.pools[p], volume);
  }

  /** A volume just created is never in its final state: its device has size 0. */
  lemma NewVolumeIsOff(
      c: ServerConfig, w: World, inn: CreateVolumeRequest, id: u16, w': World, res: VolumeInfo, code: Code)
    requires CreateVolumeOutcome(c, w, inn, id, w', res, code) && code in {OK, Internal}
    requires WellFormed(c, w'.st)
    ensures Off(w'.fs, GoalOf(c, w'.st), DevItem(DeviceOf(NewVolume(inn, id))))
    ensures !Converged(w'.fs, GoalOf(c, w'.st))
  {
    hide *;
    var g, p, volume := GoalOf(c, w'.st), ToU16(inn.poolId), NewVolume(inn, id);
    NewVolumeFacts(c, w, inn, id, w', res, code);
    BumpKeepsPools(w.st, id);
    NewVolumeIsWanted(c, Bump(w.st, id), p, volume);
    var pool := w.st.pools[p];
    NewDeviceIsOff(c, w.fs, w'.fs, pool, volume, g);
    WfIsVisible(g);
    ConvergedIffNothingOff(w'.fs, g);
  }

  lemma BumpKeepsPools(s: State, id: u16)
    ensures Bump(s, id).pools == s.pools
  {
  }

  lemma NewDeviceIsOff(c: ServerConfig, a: Fs, b: Fs, pool: StatePool, volume: StateVolume, g: Goal)
    requires VolumeMade(c, a, b, pool, volume)
    requires DeviceOf(volume) in g.devs && g.devs[DeviceOf(volume)] == FileOf(c, pool, volume)
    requires FileOf(c, pool, volume) in g.floors && g.floors[FileOf(c, pool, volume)] == Max(GIB, volume.size)
    ensures Off(b, g, DevItem(DeviceOf(volume)))
  {
    hide DeviceOf, FileOf, LinkOf, Zeros;
  }

  /** A disk file made for a new volume has the requested size, and what has been written to it
      survives the first reconcile exactly when that size is at least 1 GiB, or nothing but
      zeros was written. */
  lemma FirstBytesKeptIffLarge(
      c: ServerConfig, w: World, inn: CreateVolumeRequest, id: u16, w': World, res: VolumeInfo, code: Code,
      bytes: seq<byte>, written: Fs, after: Fs)
    requires CreateVolumeOutcome(c, w, inn, id, w', res, code) && code in {OK, Internal} && WellFormed(c, w'.st)
    requires var f := FileOf(c, w.st.pools[ToU16(inn.poolId)], NewVolume(inn, id));
             && w.fs.Length(f) < NewVolume(inn, id).size
             && |bytes| == w'.fs.Length(f) && written == w'.fs.(files := w'.fs.files[f := bytes])
    requires Toward(written, after, GoalOf(c, w'.st)) && Converged(after, GoalOf(c, w'.st))
    requires Answered(written, after, GoalOf(c, w'.st))
    ensures |bytes| == NewVolume(inn, id).size
    ensures var f := FileOf(c, w.st.pools[ToU16(inn.poolId)], NewVolume(inn, id));
            && f in after.files && |after.files[f]| >= |bytes|
            && (after.files[f][..|bytes|] == bytes <==> |bytes| >= GIB || bytes == Zeros(|bytes|))
  {
    hide CreateVolumeOutcome, WellFormed, GoalOf, DeviceOf, FileOf, NewVolume, PutVolume, Converged, LinkOf,
      Toward, Answered;
    var volume := NewVolume(inn, id);
    NewVolumeFacts(c, w, inn, id, w', res, code);
    NewVolumeIsWanted(c, Bump(w.st, id), ToU16(inn.poolId), volume);
    BytesKeptIffLargeEnough(written, after, GoalOf(c, w'.st), FileOf(c, w.st.pools[ToU16(inn.poolId)], volume));
  }

  // What a create finds in the kernel.

  lemma WellFormedTakesNewPool(c: ServerConfig, s: State, pool: StatePool)
    requires WellFormed(c, PutPool(s, pool)) && pool.id !in s.pools
    ensures pool.id != 0 && forall p | p in s.pools :: s.pools[p].name != pool.name
  {
    hide IdsApart, FilesApart, VolumesNamed;
    var t := PutPool(s, pool);
    assert pool.id in t.pools && t.pools[pool.id] == pool;
    forall p | p in s.pools ensures s.pools[p].name != pool.name { assert p in t.pools && t.pools[p] == s.pools[p]; }
  }

  lemma HealthyTakesOwnTarget(c: ServerConfig, a: Fs, b: Fs, s: State, pool: StatePool)
    requires TidyTargets(c.baseIqn, b) && ClearTargets(c, b, PutPool(s, pool))
    requires TargetPut(a, b, TpgOf(TargetOf(c, pool))) && TpgOf(TargetOf(c, pool)) in b.tpgs
    ensures OwnTarget(c, a, pool)
  {
    hide TpgName, Ours, CanonTpg, Iqn;
    var t, own := PutPool(s, pool), TpgOf(TargetOf(c, pool));
    assert pool.id in t.pools && PoolTpg(c, t, pool.id) == own;
    assert forall p | p in a.tpgs :: p in b.tpgs;
  }

  lemma HealthyTakesTarget(c: ServerConfig, a: Fs, b: Fs, pool: StatePool)
    requires TidyTargets(c.baseIqn, b) && TargetPut(a, b, TpgOf(TargetOf(c, pool))) && !Shrunk(a, b)
    ensures TpgOf(TargetOf(c, pool)) in b.tpgs && AloneInIqn(a, TpgOf(TargetOf(c, pool)))
  {
    hide TpgOf, Ours, CanonTpg;
    PoolTarget(c, pool);
    assert forall p | p in a.tpgs :: p in b.tpgs;
  }

  /** However the call ends, creating a pool leaves a healthy server exactly when what it registers
      has a new name and finds nothing but its own portal group under its id and target name,
      and what it only makes finds nothing else in the target directory. */
  lemma PoolStaysHealthyIffFresh(
      c: ServerConfig, w: World, inn: CreatePoolRequest, id: u16, w': World, res: PoolInfo, code: Code)
    requires Healthy(c, w) && CreatePoolOutcome(c, w, inn, id, w', res, code)
    ensures Healthy(c, w') <==> FreshPoolCall(c, w, inn, id, w', code)
  {
    hide TidyTargets, TidyLuns, TidyLinks, TidyDevs, ClearTargets, ClearDevs, ClearLinks, TargetPut, TpgOf, Fs.Wf,
      WellFormed, NewPool, PutPool, PoolConflict, OwnTarget, AloneInIqn, Shrunk, Saved;
    var pool := NewPool(inn, id);
    if FreshPoolCall(c, w, inn, id, w', code) { CreatePoolStaysHealthy(c, w, inn, id, w', res, code); }
    if Healthy(c, w') {
      SameIsShrunk(w.fs, w'.fs);
      if !Shrunk(w.fs, w'.fs) { HealthyTakesTarget(c, w.fs, w'.fs, pool); }
      if code in {OK, Internal} {
        NewPoolIs(inn, id);
        WellFormedParts(c, w.st);
        IdIsNew(w.st, inn, id);
        WellFormedTakesNewPool(c, w.st, pool);
        HealthyTakesOwnTarget(c, w.fs, w'.fs, w.st, pool);
      }
    }
  }

  lemma WellFormedTakesNewVolume(c: ServerConfig, s: State, p: u16, volume: StateVolume)
    requires WellFormed(c, s) && p in s.pools && WellFormed(c, PutVolume(s, p, volume))
    requires volume.id !in s.pools[p].volumes
    ensures FreshVolume(c, s, p, volume)
  {
    hide VolKeys, VolFile, FileOf, IdsApart, FilesApart, NamesApart, VolumesNamed;
    IdsStayApartIffNew(s, p, volume);
    FilesStayApartIffNew(c, s, p, volume);
    assert p in PutVolume(s, p, volume).pools && volume.id in PutVolume(s, p, volume).pools[p].volumes;
  }

  lemma VolumePutOnlyAdds(c: ServerConfig, a: Fs, b: Fs, pool: StatePool, volume: StateVolume)
    requires VolumePut(c, a, b, pool, volume)
    ensures a.tpgs.Keys <= b.tpgs.Keys && a.devs.Keys <= b.devs.Keys
    ensures forall x | x in a.links :: x in b.links && b.links[x] == a.links[x]
  {
    hide TpgOf, HbaName, LunName, ImagePath, FileTouched, DevSet;
  }

  lemma HealthyTakesOwnExport(c: ServerConfig, a: Fs, b: Fs, s: State, p: u16, volume: StateVolume)
    requires WellKeyed(s) && p in s.pools && volume.id !in s.pools[p].volumes
    requires TidyTargets(c.baseIqn, b) && TpgOf(TargetOf(c, s.pools[p])) in b.tpgs
    requires ClearDevs(b, PutVolume(s, p, volume)) && ClearLinks(c, b, PutVolume(s, p, volume))
    requires VolumePut(c, a, b, s.pools[p], volume)
    ensures OwnExport(c, a, s.pools[p], volume)
  {
    hide TpgOf, HbaName, LunName, ImagePath, VolumePut, Ours, CanonTpg, VolKeys, VolDev, VolLun, WellKeyed, PutVolume;
    PoolTarget(c, s.pools[p]);
    NewVolumePaths(c, s, p, volume);
    VolumePutOnlyAdds(c, a, b, s.pools[p], volume);
  }

  lemma MadeInTarget(c: ServerConfig, a: Fs, b: Fs, pool: StatePool, volume: StateVolume)
    requires VolumeMade(c, a, b, pool, volume) && b.Wf()
    ensures TpgOf(TargetOf(c, pool)) in b.tpgs
  {
    hide TpgOf, HbaName, LunName, ImagePath, DevSet, Zeros;
  }

  /** A volume that is made and registered leaves a healthy server exactly when its id and disk
      file are new and what the kernel had in its places was its own. */
  lemma VolumeStaysHealthyIffFresh(
      c: ServerConfig, w: World, inn: CreateVolumeRequest, id: u16, w': World, res: VolumeInfo, code: Code)
    requires Healthy(c, w) && CreateVolumeOutcome(c, w, inn, id, w', res, code) && code in {OK, Internal}
    ensures Healthy(c, w') <==> FreshVolumeCall(c, w, inn, id)
  {
    hide Tidy, Clear, WellFormed, Fs.Wf, VolumePut, MadeInOrder, VolumeMade, OwnExport, NewVolume, VolumeConflict,
      PutVolume, FreshVolume;
    if FreshVolumeCall(c, w, inn, id) { CreateVolumeStaysHealthy(c, w, inn, id, w', res, code); }
    if Healthy(c, w') {
      var s, p, volume := w.st, ToU16(inn.poolId), NewVolume(inn, id);
      VolumeIdIs(inn, id);
      WellFormedParts(c, s);
      SamePoolsStayHealthy(c, w.fs, s, Bump(s, id));
      Runs.NotInPool(s, p, id);
      WellFormedTakesNewVolume(c, Bump(s, id), p, volume);
      FreshUnderMark(c, s, p, volume, id);
      HealthyExport(c, w, w', p, volume, id);
    }
  }

  lemma FreshUnderMark(c: ServerConfig, s: State, p: u16, volume: StateVolume, id: u16)
    requires p in s.pools && FreshVolume(c, Bump(s, id), p, volume)
    ensures FreshVolume(c, s, p, volume)
  {
    hide ImagePath;
    assert VolKeys(Bump(s, id)) == VolKeys(s);
    assert forall k | k in VolKeys(s) :: VolFile(c, Bump(s, id), k) == VolFile(c, s, k);
  }

  lemma HealthyExport(c: ServerConfig, w: World, w': World, p: u16, volume: StateVolume, id: u16)
    requires WellKeyed(w.st) && p in w.st.pools && volume.id !in w.st.pools[p].volumes
    requires Healthy(c, w') && w'.st == PutVolume(Bump(w.st, id), p, volume)
    requires VolumePut(c, w.fs, w'.fs, w.st.pools[p], volume) && VolumeMade(c, w.fs, w'.fs, w.st.pools[p], volume)
    ensures OwnExport(c, w.fs, w.st.pools[p], volume)
  {
    hide TidyTargets, TidyLuns, TidyLinks, TidyDevs, ClearTargets, ClearDevs, ClearLinks, WellFormed, VolumePut,
      VolumeMade, OwnExport, PutVolume;
    TidyParts(c.baseIqn, w'.fs);
    MadeInTarget(c, w.fs, w'.fs, w.st.pools[p], volume);
    HealthyTakesOwnExport(c, w.fs, w'.fs, Bump(w.st, id), p, volume);
  }

  lemma AgreedTakesPool(r: State, s: State, pool: StatePool)
    requires WellKeyed(r) && Agree(r, PutPool(s, pool))
    ensures NoPoolClash(r, pool)
  {
    hide VolKeys;
    if pool.id in r.pools { assert pool.id in PutPool(s, pool).pools; }
  }

  lemma AgreedTakesVolume(r: State, s: State, p: u16, volume: StateVolume)
    requires p in s.pools && s.pools[p].id == p && volume.id !in s.pools[p].volumes
    requires Agree(r, PutVolume(s, p, volume))
    ensures NoVolumeClash(r, s.pools[p], volume)
  {
    hide VolKeys;
    var t, n := PutVolume(s, p, volume), VolKey(p, volume.id);
    NewKeysOfVolume(s, p, volume);
    forall k | k in VolKeys(r) && k.vol == volume.id
      ensures k.pool == p && p in r.pools && r.pools[p].name == s.pools[p].name && VolOf(r, k).name == volume.name
    {
      assert k == n && n in VolKeys(t);
      KeyOfPool(r, k);
    }
  }

  lemma KeyOfPool(s: State, k: VolKey)
    requires k in VolKeys(s)
    ensures k.pool in s.pools
  {
  }

  lemma ClearTakesPool(c: ServerConfig, fs: Fs, r: State, pool: StatePool)
    requires WellKeyed(r) && ClearTargets(c, fs, r) && TpgOf(TargetOf(c, pool)) in fs.tpgs
    ensures NoPoolClash(r, pool)
  {
    hide TpgName, Iqn;
    PoolTarget(c, pool);
    if pool.id in r.pools {
      assert PoolTpg(c, r, pool.id) == TpgOf(TargetOf(c, pool));
      assert PoolNameOf(c.baseIqn, PoolTpg(c, r, pool.id).iqn) == r.pools[pool.id].name;
      assert PoolNameOf(c.baseIqn, TpgOf(TargetOf(c, pool)).iqn) == pool.name;
    }
  }

  /** What the theorems about runs ask of a create is exactly what it takes: the call leaves a
      server that could start from memory and from its file if and only if it was fresh, for
      pools however it ends, and for volumes if it is answered OK or Internal. */
  lemma CreateStaysDurableIffFresh(c: ServerConfig, w: World, e: Event, w': World)
    requires Durable(c, w) && Step(c, w, e, w')
    requires e.PoolCreated? || (e.VolumeCreated? && e.code in {OK, Internal})
    ensures Durable(c, w') <==> Fresh(c, w, e, w')
  {
    hide Durable, Fresh, Step;
    if Fresh(c, w, e, w') { StepStaysDurable(c, w, e, w'); }
    if Durable(c, w') {
      if e.PoolCreated? { DurableTakesPool(c, w, e, w'); } else { DurableTakesVolume(c, w, e, w'); }
    }
  }

  lemma DurableTakesPool(c: ServerConfig, w: World, e: Event, w': World)
    requires Durable(c, w) && Durable(c, w') && Step(c, w, e, w') && e.PoolCreated?
    ensures Fresh(c, w, e, w')
  {
    hide Healthy, Clear, WellFormed, Agree, CreatePoolOutcome, FreshPoolCall, NewPool, NoPoolClash, Shrunk;
    PoolStaysHealthyIffFresh(c, w, e.newPool, e.id, w', e.pool, e.code);
    if w'.file == w.file {
      WellFormedParts(c, Loaded(w.file));
      if e.code == Internal {
        PoolIsPut(c, w, e.newPool, e.id, w', e.pool, e.code);
        AgreedTakesPool(Loaded(w.file), w.st, NewPool(e.newPool, e.id));
      }
      if !Shrunk(w.fs, w'.fs) { NewGroupTakesPool(c, w, e.newPool, e.id, w', e.pool, e.code); }
    }
  }

  lemma NewGroupTakesPool(
      c: ServerConfig, w: World, inn: CreatePoolRequest, id: u16, w': World, res: PoolInfo, code: Code)
    requires CreatePoolOutcome(c, w, inn, id, w', res, code) && !Shrunk(w.fs, w'.fs) && Healthy(c, w')
    requires WellKeyed(Loaded(w'.file)) && Clear(c, w'.fs, Loaded(w'.file))
    ensures NoPoolClash(Loaded(w'.file), NewPool(inn, id))
  {
    hide TidyTargets, TidyLuns, TidyLinks, TidyDevs, ClearTargets, ClearDevs, ClearLinks, TargetPut, TpgOf, Fs.Wf,
      WellFormed, WellKeyed, NewPool, PutPool, PoolConflict, NoPoolClash, AloneInIqn, Shrunk, Saved;
    SameIsShrunk(w.fs, w'.fs);
    HealthyTakesTarget(c, w.fs, w'.fs, NewPool(inn, id));
    ClearTakesPool(c, w'.fs, Loaded(w'.file), NewPool(inn, id));
  }

  lemma PoolIsPut(
      c: ServerConfig, w: World, inn: CreatePoolRequest, id: u16, w': World, res: PoolInfo, code: Code)
    requires CreatePoolOutcome(c, w, inn, id, w', res, code) && code in {OK, Internal}
    ensures w'.st == PutPool(w.st, NewPool(inn, id))
  {
    hide TargetPut, TpgOf, Fs.Wf, PoolConflict, Saved;
  }

  lemma DurableTakesVolume(c: ServerConfig, w: World, e: Event, w': World)
    requires Durable(c, w) && Durable(c, w') && Step(c, w, e, w') && e.VolumeCreated? && e.code in {OK, Internal}
    ensures Fresh(c, w, e, w')
  {
    hide Healthy, Clear, WellFormed, Agree, CreateVolumeOutcome, FreshVolumeCall, NewVolume, NoVolumeClash,
      ScannedBackstores, NextAfter;
    var p, volume := ToU16(e.newVolume.poolId), NewVolume(e.newVolume, e.id);
    VolumeStaysHealthyIffFresh(c, w, e.newVolume, e.id, w', e.volume, e.code);
    VolumeIsPut(c, w, e.newVolume, e.id, w', e.volume, e.code);
    if w'.file == w.file {
      VolumeIdIs(e.newVolume, e.id);
      HealthyIsKeyed(c, w);
      Runs.NotInPool(w.st, p, e.id);
      AgreedTakesVolume(Loaded(w.file), Bump(w.st, e.id), p, volume);
    }
  }

  lemma VolumeIsPut(
      c: ServerConfig, w: World, inn: CreateVolumeRequest, id: u16, w': World, res: VolumeInfo, code: Code)
    requires CreateVolumeOutcome(c, w, inn, id, w', res, code) && code in {OK, Internal}
    ensures var p := ToU16(inn.poolId);
      && p in w.st.pools && !VolumeConflict(w.st.pools[p], id)
      && w'.st == PutVolume(Bump(w.st, id), p, NewVolume(inn, id))
  {
    hide VolumePut, MadeInOrder, VolumeMade, VolumeConflict, Fs.Wf, Saved, PutVolume, NewVolume;
  }

  lemma HealthyIsKeyed(c: ServerConfig, w: World)
    requires Healthy(c, w)
    ensures WellKeyed(w.st)
  {
    hide Tidy, Clear;
    WellFormedParts(c, w.st);
  }

  function OnePool(id: u16, name: string): State {
    State(0, map[id := StatePool(id, name, map[])])
  }

  const EMPTY_MACHINE := Fs(true, {}, map[], {}, {}, map[], {}, map[], map[], map[])

  /** A machine with one exported target and nothing else. */
  function MachineWith(c: ServerConfig, pool: StatePool): Fs {
    var p := TpgOf(TargetOf(c, pool));
    EMPTY_MACHINE.(iqns := {p.iqn}, tpgs := map[p := EXPORTED])
  }

  lemma OnePoolHealthy(c: ServerConfig, id: u16, name: string, file: StateFile)
    requires id != 0
    ensures Healthy(c, World(MachineWith(c, StatePool(id, name, map[])), OnePool(id, name), file))
    ensures WellFormed(c, OnePool(id, name))
  {
    hide Iqn;
    var s, pool := OnePool(id, name), StatePool(id, name, map[]);
    var fs := MachineWith(c, pool);
    assert VolKeys(s) == {};
    assert WellFormed(c, s);
    assert CanonTpg(TpgName(id)) && Ours(c.baseIqn, Iqn(c.baseIqn, name));
    assert Tidy(c.baseIqn, fs);
    assert Clear(c, fs, s);
  }

  /** A create that makes its portal group and aborts, and the same request again before the next
      reconcile: the first group's id is taken, so the allocator picks another, and the new
      group shares the target directory with the dead one.  No reconcile can follow that: the
      next one is stopped at the dead group, whatever it meets. */
  lemma RetryAfterAbort(c: ServerConfig) returns (ws: seq<World>, es: seq<Event>)
    ensures |es| == 2 && Run(c, ws, es) && Durable(c, ws[0])
    ensures Converged(ws[0].fs, GoalOf(c, ws[0].st))
    ensures es[0].PoolCreated? && es[1].PoolCreated? && es[0].newPool == es[1].newPool
    ensures es[0].code == Aborted && es[1].code == OK
    ensures FreeTpgId(ws[0].fs, c, es[0].id) && FreeTpgId(ws[1].fs, c, es[1].id) && Healthy(c, ws[1])
    ensures WellFormed(c, ws[2].st) && !Managed(ws[2].fs, GoalOf(c, ws[2].st))
    ensures forall w, ok | Step(c, ws[2], Ticked(ok), w) :: !ok
  {
    hide Healthy, Durable, WellFormed, Managed, GoalOf, MachineWith, OnePool, TwoGroups, Iqn, CreatePoolOutcome,
      Reconciled, Converged, FreeTpgId, FreshPoolCall, Reconciler.DeadBesideLive;
    var inn, file := CreatePoolRequest(None, Some("a")), Holds(EMPTY_STATE);
    var w0 := World(EMPTY_MACHINE, EMPTY_STATE, file);
    var w1 := World(MachineWith(c, StatePool(1, "a", map[])), EMPTY_STATE, file);
    var w2 := World(TwoGroups(c), OnePool(2, "a"), Holds(OnePool(2, "a")));
    var e0 := PoolCreated(inn, 1, PoolInfo(1, Invalid, "", ""), Aborted);
    var e1 := PoolCreated(inn, 2, PoolInfo(2, Active, "a", Iqn(c.baseIqn, "a")), OK);
    ws, es := [w0, w1, w2], [e0, e1];
    NothingIsDurable(c, file);
    NothingIsConverged(c);
    AbortedFirst(c, w0, w1, inn);
    MadeSecond(c, w1, w2, inn);
    TwoStepRun(c, ws, es);
    OnePoolHealthy(c, 2, "a", file);
    FirstIsFree(c);
    CreatePoolStaysHealthy(c, w0, inn, 1, w1, PoolInfo(1, Invalid, "", ""), Aborted);
    TwoGroupsStop(c, w2);
  }

  function TwoGroups(c: ServerConfig): Fs {
    var p, q := TpgOf(TargetOf(c, StatePool(1, "a", map[]))), TpgOf(TargetOf(c, StatePool(2, "a", map[])));
    EMPTY_MACHINE.(iqns := {p.iqn}, tpgs := map[p := EXPORTED, q := EXPORTED])
  }

  lemma NothingIsDurable(c: ServerConfig, file: StateFile)
    requires file == Holds(EMPTY_STATE)
    ensures var w := World(EMPTY_MACHINE, EMPTY_STATE, file);
            Durable(c, w) && Healthy(c, w) && WellFormed(c, w.st)
  {
    var w := World(EMPTY_MACHINE, EMPTY_STATE, file);
    assert VolKeys(EMPTY_STATE) == {};
    assert Healthy(c, w);
    SavedIsDurable(c, w);
  }

  lemma NothingIsConverged(c: ServerConfig)
    requires WellFormed(c, EMPTY_STATE)
    ensures Converged(EMPTY_MACHINE, GoalOf(c, EMPTY_STATE))
  {
    var g := GoalOf(c, EMPTY_STATE);
    assert VolKeys(EMPTY_STATE) == {};
    assert g.tpgs == {} && g.luns == map[] && g.devs == map[];
    assert ViewOf(EMPTY_MACHINE, g.base) == Desired(g, EMPTY_MACHINE);
  }

  lemma NothingHasSerials(c: ServerConfig, a: Fs, b: Fs)
    requires WellFormed(c, EMPTY_STATE)
    ensures Reconciler.SerialsSet(a, b, GoalOf(c, EMPTY_STATE))
  {
    assert VolKeys(EMPTY_STATE) == {};
  }

  lemma AbortedFirst(c: ServerConfig, w: World, w': World, inn: CreatePoolRequest)
    requires inn == CreatePoolRequest(None, Some("a")) && w == World(EMPTY_MACHINE, EMPTY_STATE, w.file)
    requires w' == w.(fs := MachineWith(c, StatePool(1, "a", map[])))
    ensures CreatePoolOutcome(c, w, inn, 1, w', PoolInfo(1, Invalid, "", ""), Aborted)
    ensures FreshPoolCall(c, w, inn, 1, w', Aborted)
  {
    hide TpgName, Iqn;
    var p := TpgOf(TargetOf(c, StatePool(1, "a", map[])));
    assert NewPool(inn, 1) == StatePool(1, "a", map[]);
    assert w'.fs.tpgs == w.fs.tpgs[p := EXPORTED];
  }

  lemma MadeSecond(c: ServerConfig, w: World, w': World, inn: CreatePoolRequest)
    requires inn == CreatePoolRequest(None, Some("a"))
    requires w == World(MachineWith(c, StatePool(1, "a", map[])), EMPTY_STATE, w.file)
    requires w' == World(TwoGroups(c), OnePool(2, "a"), Holds(OnePool(2, "a")))
    ensures CreatePoolOutcome(c, w, inn, 2, w', PoolInfo(2, Active, "a", Iqn(c.baseIqn, "a")), OK)
  {
    hide TpgName, Iqn;
    var q := TpgOf(TargetOf(c, StatePool(2, "a", map[])));
    assert NewPool(inn, 2) == StatePool(2, "a", map[]);
    assert w'.fs.tpgs == w.fs.tpgs[q := EXPORTED];
    assert w'.st == PutPool(w.st, NewPool(inn, 2));
  }

  lemma TwoStepRun(c: ServerConfig, ws: seq<World>, es: seq<Event>)
    requires |ws| == 3 && |es| == 2 && Step(c, ws[0], es[0], ws[1]) && Step(c, ws[1], es[1], ws[2])
    requires !Crash(es[0])
    ensures Run(c, ws, es)
  {
    hide Step;
  }

  lemma FirstIsFree(c: ServerConfig)
    ensures FreeTpgId(EMPTY_MACHINE, c, 1)
    ensures FreeTpgId(MachineWith(c, StatePool(1, "a", map[])), c, 2)
  {
    assert ParseTpg(TpgName(1)) == Num(1);
  }

  lemma TwoGroupsStop(c: ServerConfig, w: World)
    requires w.fs == TwoGroups(c) && w.st == OnePool(2, "a") && WellFormed(c, w.st)
    ensures !Managed(w.fs, GoalOf(c, w.st))
    ensures forall w', ok | Step(c, w, Ticked(ok), w') :: !ok
  {
    hide Managed, ManagedTargets, GoalOf, WellFormed, Reconciled, TpgName, Iqn;
    var p, q := TpgOf(TargetOf(c, StatePool(1, "a", map[]))), TpgOf(TargetOf(c, StatePool(2, "a", map[])));
    assert ParseTpg(p.tpg) == Num(1) && ParseTpg(q.tpg) == Num(2);
    assert Ours(c.baseIqn, p.iqn) && p in w.fs.tpgs && q in w.fs.tpgs && q.iqn == p.iqn;
    assert Reconciler.DeadBesideLive(w.fs, c.baseIqn, w.st.pools) by {
      assert Listed(w.fs, c.baseIqn, p) && !Reconciler.Live(p, w.st.pools) && Reconciler.Live(q, w.st.pools);
    }
    if Managed(w.fs, GoalOf(c, w.st)) {
      GoalIsWf(c, w.st);
      ManagedParts(w.fs, GoalOf(c, w.st));
      ManagedTargetsTidy(c, w.fs, w.st);
      assert false;
    }
  }

  lemma ManagedParts(fs: Fs, g: Goal)
    requires Managed(fs, g)
    ensures ManagedTargets(fs, g) && ManagedDevs(fs, g)
  {
    hide ManagedTargets, ManagedLuns, ManagedDevs;
  }

  function VolumeNamed(name: string): StateVolume {
    StateVolume(1, name, 0, 1)
  }

  const DATA := StatePool(1, "data", map[])

  function MadeDevice(c: ServerConfig, name: string): Device {
    Device(FileOf(c, DATA, VolumeNamed(name)), 0, true, name, true)
  }

  /** The machine when the create of volume "v" has made disk file and backstore. */
  function HalfMade(c: ServerConfig): Fs {
    var d := DeviceOf(VolumeNamed("v"));
    MachineWith(c, DATA).(
      files := map[FileOf(c, DATA, VolumeNamed("v")) := Zeros(1)],
      hbas := {d.hba},
      devs := map[d := MadeDevice(c, "v")])
  }

  /** The same machine when a volume "w" with the same id has been made, too. */
  function MadeBeside(c: ServerConfig): Fs {
    var fs, d, x := HalfMade(c), DeviceOf(VolumeNamed("w")), LinkOf(c, DATA, VolumeNamed("w"));
    fs.(
      files := fs.files[FileOf(c, DATA, VolumeNamed("w")) := Zeros(1)],
      devs := fs.devs[d := MadeDevice(c, "w")],
      luns := {x.lun},
      links := map[x := d])
  }

  function RequestFor(name: string): CreateVolumeRequest {
    CreateVolumeRequest(1, Some(1), Some(name), 1)
  }

  /** A create with an explicit id that aborts when its backstore is there, and a second one with
      the same id under another name: registry and disk files are free, yet the backstore
      directory ends with two devices, and no reconcile can follow that. */
  lemma RenamedRetry(c: ServerConfig) returns (ws: seq<World>, es: seq<Event>)
    ensures |es| == 2 && Run(c, ws, es) && Durable(c, ws[0])
    ensures es[0].VolumeCreated? && es[0].newVolume == RequestFor("v") && es[0].code == Aborted
    ensures es[1].VolumeCreated? && es[1].newVolume == RequestFor("w") && es[1].code == OK
    ensures Healthy(c, ws[1]) && 1 in ws[1].st.pools && FreshVolume(c, ws[1].st, 1, NewVolume(es[1].newVolume, 1))
    ensures WellFormed(c, ws[2].st) && !Managed(ws[2].fs, GoalOf(c, ws[2].st))
  {
    hide Healthy, Durable, WellFormed, Managed, GoalOf, MachineWith, OnePool, HalfMade, MadeBeside, Iqn, RequestFor,
      CreateVolumeOutcome, FreshVolume, FreshVolumeCall, NewVolume, VolumeNamed;
    var s: State, file := OnePool(1, "data"), Holds(OnePool(1, "data"));
    var t := WithVolume(s);
    var w0 := World(MachineWith(c, DATA), s, file);
    var w1 := World(HalfMade(c), Bump(s, 1), file);
    var w2 := World(MadeBeside(c), t, Holds(t));
    var none := VolumeInfo(0, 0, Invalid, "", 0, "", 0);
    var made := VolumeInfo(1, 1, Active, "w", 1, Iqn(c.baseIqn, "data"), 1);
    var e0 := VolumeCreated(RequestFor("v"), 1, [], none, Aborted);
    var e1 := VolumeCreated(RequestFor("w"), 1, [], made, OK);
    ws, es := [w0, w1, w2], [e0, e1];
    OnePoolHealthy(c, 1, "data", file);
    SavedIsDurable(c, w0);
    HalfMadeOutcome(c, w0, w1, none);
    MadeBesideOutcome(c, w1, w2, made);
    Explicit(RequestFor("v"), RequestFor("w"));
    TwoStepRun(c, ws, es);
    CreateVolumeStaysHealthy(c, w0, RequestFor("v"), 1, w1, none, Aborted);
    NoVolumesYet(c, w1);
    TwoDevicesStop(c, w2, s);
  }

  function WithVolume(s: State): State
    requires s == OnePool(1, "data")
  {
    PutVolume(Bump(Bump(s, 1), 1), 1, VolumeNamed("w"))
  }

  lemma Explicit(v: CreateVolumeRequest, w: CreateVolumeRequest)
    requires v == RequestFor("v") && w == RequestFor("w")
    ensures v.volumeId == w.volumeId == Some(1)
  {
  }

  lemma HalfMadeIs(c: ServerConfig)
    ensures var a, b := MachineWith(c, DATA), HalfMade(c);
            && VolumePut(c, a, b, DATA, VolumeNamed("v")) && MadeInOrder(c, a, b, DATA, VolumeNamed("v"))
            && b.Wf() && OwnExport(c, a, DATA, VolumeNamed("v"))
  {
    hide HbaName, ImagePath, TpgOf, LunName, Iqn;
    PoolTarget(c, DATA);
  }

  lemma HalfMadeOutcome(c: ServerConfig, w: World, w': World, res: VolumeInfo)
    requires w == World(MachineWith(c, DATA), OnePool(1, "data"), w.file)
    requires w' == World(HalfMade(c), Bump(w.st, 1), w.file)
    ensures CreateVolumeOutcome(c, w, RequestFor("v"), 1, w', res, Aborted)
    ensures FreshVolumeCall(c, w, RequestFor("v"), 1)
  {
    hide VolumePut, MadeInOrder, OwnExport, MachineWith, HalfMade, Fs.Wf, VolFile, FileOf;
    HalfMadeIs(c);
    assert NewVolume(RequestFor("v"), 1) == VolumeNamed("v") && w.st.pools[1] == DATA;
    assert !VolumeConflict(DATA, 1);
    assert VolKeys(w.st) == {};
  }

  lemma MadeBesideIs(c: ServerConfig)
    ensures var a, b := HalfMade(c), MadeBeside(c);
            && VolumePut(c, a, b, DATA, VolumeNamed("w")) && MadeInOrder(c, a, b, DATA, VolumeNamed("w"))
            && VolumeMade(c, a, b, DATA, VolumeNamed("w")) && b.Wf()
  {
    hide VolumePut, MadeInOrder, VolumeMade, HalfMade, MadeBeside, Fs.Wf;
    MadeBesidePut(c);
    MadeBesideMade(c);
  }

  lemma MadeBesidePut(c: ServerConfig)
    ensures VolumePut(c, HalfMade(c), MadeBeside(c), DATA, VolumeNamed("w"))
    ensures MadeInOrder(c, HalfMade(c), MadeBeside(c), DATA, VolumeNamed("w"))
  {
    hide FileOf, LinkOf, DeviceOf, FileTouched, BackstorePut, LunPut, HalfMade, MadeBeside, MachineWith;
    var a, volume := HalfMade(c), VolumeNamed("w");
    var b := MadeBeside(c);
    var f := a.(files := b.files);
    var d := f.(hbas := b.hbas, devs := b.devs);
    MadeBesideFile(c);
    MadeBesideExport(c);
    VolumePutInSteps(c, a, f, d, b, DATA, volume);
  }

  lemma MadeBesideFile(c: ServerConfig)
    ensures var a := HalfMade(c);
            var f, b := FileOf(c, DATA, VolumeNamed("w")), a.(files := MadeBeside(c).files);
            FileTouched(a, b, f, 1) && f in b.files && b.Length(f) == 1
  {
    hide HbaName, ImagePath, TpgOf, LunName, Iqn, MachineWith;
    var f := FileOf(c, DATA, VolumeNamed("w"));
    assert HalfMade(c).Length(f) < 1 || HalfMade(c).files[f] == Zeros(1);
  }

  lemma MadeBesideExport(c: ServerConfig)
    ensures var a, b, volume := HalfMade(c), MadeBeside(c), VolumeNamed("w");
            var f := a.(files := b.files);
            var d := f.(hbas := b.hbas, devs := b.devs);
            && BackstorePut(f, d, DeviceOf(volume), FileOf(c, DATA, volume), 0)
            && DeviceOf(volume) in d.devs && DevSet(d.devs[DeviceOf(volume)], FileOf(c, DATA, volume), 0)
            && LunPut(d, b, LinkOf(c, DATA, volume), DeviceOf(volume))
  {
    hide HbaName, ImagePath, TpgOf, LunName, Iqn;
  }

  lemma MadeBesideMade(c: ServerConfig)
    ensures VolumeMade(c, HalfMade(c), MadeBeside(c), DATA, VolumeNamed("w")) && MadeBeside(c).Wf()
  {
    hide HbaName, ImagePath, TpgOf, LunName, Iqn;
    PoolTarget(c, DATA);
  }

  lemma MadeBesideOutcome(c: ServerConfig, w: World, w': World, res: VolumeInfo)
    requires w == World(HalfMade(c), Bump(OnePool(1, "data"), 1), w.file)
    requires w' == World(MadeBeside(c), WithVolume(OnePool(1, "data")), Holds(w'.st))
    requires res == VolumeInfo(1, 1, Active, "w", 1, Iqn(c.baseIqn, "data"), 1)
    ensures CreateVolumeOutcome(c, w, RequestFor("w"), 1, w', res, OK)
  {
    hide VolumePut, MadeInOrder, VolumeMade, HalfMade, MadeBeside, Fs.Wf, Iqn;
    MadeBesideIs(c);
    assert NewVolume(RequestFor("w"), 1) == VolumeNamed("w") && w.st.pools[1] == DATA;
    assert !VolumeConflict(DATA, 1);
  }

  lemma NoVolumesYet(c: ServerConfig, w: World)
    requires w.st == Bump(OnePool(1, "data"), 1)
    ensures 1 in w.st.pools && FreshVolume(c, w.st, 1, NewVolume(RequestFor("w"), 1))
  {
    assert VolKeys(w.st) == {};
  }

  lemma TwoDevicesStop(c: ServerConfig, w: World, s: State)
    requires s == OnePool(1, "data") && w.fs == MadeBeside(c) && w.st == WithVolume(s) && WellFormed(c, s)
    ensures WellFormed(c, w.st) && !Managed(w.fs, GoalOf(c, w.st))
  {
    hide Managed, ManagedDevs, ManagedTargets, GoalOf, WellFormed, HbaName, ImagePath, TpgOf, LunName, Iqn;
    var t, volume := Bump(Bump(s, 1), 1), VolumeNamed("w");
    assert VolKeys(s) == {} && VolKeys(t) == {};
    assert SubState(t, s);
    SubStateIsWellFormed(c, t, s);
    PutVolumeWellFormed(c, t, 1, volume);
    var d, e := DeviceOf(VolumeNamed("v")), DeviceOf(VolumeNamed("w"));
    assert ParseHba(d.hba) == Hba(FILEIO, 1);
    assert d in w.fs.devs && e in w.fs.devs && d.name != e.name;
    if Managed(w.fs, GoalOf(c, w.st)) {
      ManagedParts(w.fs, GoalOf(c, w.st));
      ManagedDevsTidy(c, w.fs, w.st);
      assert false;
    }
  }

  // Unit serials.

  /** On a machine that had no devices, a complete reconcile gives two volumes one unit serial
      exactly when they have one name, whatever their pools. */
  lemma SerialsMeetIffNamesDo(c: ServerConfig, a: Fs, b: Fs, s: State, j: VolKey, k: VolKey)
    requires WellFormed(c, s) && a.devs == map[] && Reconciler.SerialsSet(a, b, GoalOf(c, s))
    requires j in VolKeys(s) && k in VolKeys(s)
    ensures SerialOf(b, VolDev(s, j)) == SerialOf(b, VolDev(s, k)) <==> VolOf(s, j).name == VolOf(s, k).name
  {
    hide WellFormed, GoalOf, HbaName, VolKeys;
    Guarantees.VolumeIsWanted(c, s, j);
    Guarantees.VolumeIsWanted(c, s, k);
    assert SerialSet(a, b, VolDev(s, j)) && SerialSet(a, b, VolDev(s, k));
  }

  // A file that lags behind memory.

  /** What the two registries have under the same id has the same name. */
  ghost predicate NamesAgree(r: State, s: State) {
    && (forall p | p in r.pools && p in s.pools :: r.pools[p].name == s.pools[p].name)
    && VolumesAgree(r, s)
  }

  lemma ClearTargetsIffNamesAgree(c: ServerConfig, w: World, r: State)
    requires WellFormed(c, w.st) && WellFormed(c, r) && Converged(w.fs, GoalOf(c, w.st))
    ensures ClearTargets(c, w.fs, r) <==> forall p | p in r.pools && p in w.st.pools ::
            r.pools[p].name == w.st.pools[p].name
  {
    hide WellFormed, Converged, GoalOf, Ours, TpgName;
    var s := w.st;
    ConvergedSees(w.fs, GoalOf(c, s));
    GoalParts(c, s);
    GoalBase(c, s);
    forall p | p in r.pools && p in s.pools
      ensures PoolTpg(c, s, p) in w.fs.tpgs && Ours(c.baseIqn, PoolTpg(c, s, p).iqn)
      ensures PoolTpg(c, s, p).tpg == PoolTpg(c, r, p).tpg
      ensures PoolTpg(c, s, p) == PoolTpg(c, r, p) <==> r.pools[p].name == s.pools[p].name
    {
      PoolKeyed(c, s, p);
      PoolKeyed(c, r, p);
      assert PoolNameOf(c.baseIqn, PoolTpg(c, s, p).iqn) == s.pools[p].name;
      assert PoolNameOf(c.baseIqn, PoolTpg(c, r, p).iqn) == r.pools[p].name;
    }
    forall p, q | p in w.fs.tpgs && q in r.pools && Ours(c.baseIqn, p.iqn) && p.tpg == PoolTpg(c, r, q).tpg
      ensures q in s.pools && p == PoolTpg(c, s, q)
    {
      var n :| n in s.pools && p == PoolTpg(c, s, n);
      PoolKeyed(c, s, n);
      PoolKeyed(c, r, q);
      assert ParseTpg(TpgName(n)) == Num(n) && ParseTpg(TpgName(q)) == Num(q);
    }
  }

  predicate VolumesAgree(r: State, s: State) {
    forall j, k | j in VolKeys(r) && k in VolKeys(s) && j.vol == k.vol :: VolOf(r, j).name == VolOf(s, k).name
  }

  lemma ClearDevsIffNamesAgree(c: ServerConfig, w: World, r: State)
    requires WellFormed(c, w.st) && WellFormed(c, r) && Converged(w.fs, GoalOf(c, w.st))
    ensures ClearDevs(w.fs, r) <==> VolumesAgree(r, w.st)
  {
    hide WellFormed, Converged, GoalOf, ClearDevs, VolumesAgree, VolKeys, WantDevs, WellKeyed, IdsApart;
    var s := w.st;
    WellFormedParts(c, s);
    WellFormedParts(c, r);
    ConvergedSees(w.fs, GoalOf(c, s));
    GoalParts(c, s);
    if ClearDevs(w.fs, r) { ClearVolumesAgree(c, w.fs, s, r); }
    if VolumesAgree(r, s) { AgreedDevsClear(c, w.fs, s, r); }
  }

  lemma ClearVolumesAgree(c: ServerConfig, fs: Fs, s: State, r: State)
    requires WellKeyed(s) && IdsApart(s) && WellKeyed(r) && ClearDevs(fs, r) && forall d | d in WantDevs(c, s) ::
             d in fs.devs
    ensures VolumesAgree(r, s)
  {
    hide HbaName, VolKeys, IdsApart, VolOf, WellKeyed;
    forall j, k | j in VolKeys(r) && k in VolKeys(s) && j.vol == k.vol ensures VolOf(r, j).name == VolOf(s, k).name {
      VolumeIds(s, k);
      VolumeIds(r, j);
      assert VolDev(s, k) in fs.devs && VolDev(s, k).hba == VolDev(r, j).hba;
    }
  }

  lemma AgreedDevsClear(c: ServerConfig, fs: Fs, s: State, r: State)
    requires WellKeyed(s) && IdsApart(s) && WellKeyed(r) && VolumesAgree(r, s)
    requires forall d | d in fs.devs && Listable(d) :: d in WantDevs(c, s)
    ensures ClearDevs(fs, r)
  {
    hide HbaName, VolKeys, IdsApart, VolOf, WellKeyed, Listable;
    forall d, j | d in fs.devs && j in VolKeys(r) && d.hba == VolDev(r, j).hba ensures d == VolDev(r, j) {
      DevOfRegistered(c, fs, s, r, d, j);
    }
  }

  lemma DevOfRegistered(c: ServerConfig, fs: Fs, s: State, r: State, d: DevPath, j: VolKey)
    requires WellKeyed(s) && IdsApart(s) && WellKeyed(r) && j in VolKeys(r) && d.hba == VolDev(r, j).hba
    requires Listable(d) ==> d in WantDevs(c, s)
    ensures exists k :: k in VolKeys(s) && j.vol == k.vol && d == VolDev(s, k)
  {
    hide HbaName, VolKeys, IdsApart, VolOf;
    VolumeIds(r, j);
    assert ParseHba(d.hba) == Hba(FILEIO, j.vol);
    var k :| k in VolKeys(s) && d == VolDev(s, k);
    VolumeIds(s, k);
    assert ParseHba(d.hba) == Hba(FILEIO, k.vol);
  }

  /** After a complete reconcile toward memory, a restart finds a kernel that it can bring to the
      file's registry exactly when no id of the file stands for another name in memory. */
  lemma LaggingFileIsManagedIff(c: ServerConfig, w: World, r: State)
    requires Healthy(c, w) && Converged(w.fs, GoalOf(c, w.st)) && WellFormed(c, r)
    ensures Managed(w.fs, GoalOf(c, r)) <==> NamesAgree(r, w.st)
  {
    hide WellFormed, Converged, GoalOf, Managed, Tidy, Clear, ClearTargets, ClearDevs, VolumesAgree;
    ManagedIffClear(c, w.fs, r);
    ClearTargetsIffNamesAgree(c, w, r);
    ClearDevsIffNamesAgree(c, w, r);
  }

  /** A portal group under a live id but another name is not wanted. */
  lemma StaleNameIsUnwanted(c: ServerConfig, s: State, p: TpgPath, q: u16)
    requires WellFormed(c, s) && q in s.pools && p.tpg == PoolTpg(c, s, q).tpg && p != PoolTpg(c, s, q)
    ensures p !in GoalOf(c, s).tpgs && Reconciler.Live(p, s.pools)
  {
    hide WantLuns, WantDevs, WantFloors, NamesApart, IdsApart, FilesApart, VolumesNamed, TpgName;
    PoolKeyed(c, s, q);
    assert ParseTpg(TpgName(q)) == Num(q);
    forall n | n in s.pools && p == PoolTpg(c, s, n) ensures n == q {
      PoolKeyed(c, s, n);
      assert ParseTpg(TpgName(n)) == Num(n);
    }
  }

  /** Yet the collection of dead targets goes by id and keeps it: however often the server
      reconciles and is started again from its file, the group stays and the view is never the
      registry's. */
  lemma {:induction false} StaleNameIsKept(
      c: ServerConfig, ws: seq<World>, es: seq<Event>, i: nat, p: TpgPath, q: u16)
    requires Run(c, ws, es) && i <= |es| && forall j | 0 <= j < i :: es[j].Ticked? || es[j] == Restarted(false)
    requires ws[0].file == Holds(ws[0].st) && WellFormed(c, ws[0].st) && q in ws[0].st.pools
    requires p in ws[0].fs.tpgs && Ours(c.baseIqn, p.iqn)
    requires p.tpg == PoolTpg(c, ws[0].st, q).tpg && p != PoolTpg(c, ws[0].st, q)
    ensures ws[i].st == ws[0].st && ws[i].file == Holds(ws[0].st)
    ensures p in ws[i].fs.tpgs && !Converged(ws[i].fs, GoalOf(c, ws[0].st))
  {
    hide WellFormed, Converged, GoalOf, PoolTpg, Ours, Reconciler.Live, Step;
    StaleNameIsUnwanted(c, ws[0].st, p, q);
    GoalBase(c, ws[0].st);
    if i > 0 {
      StaleNameIsKept(c, ws, es, i - 1, p, q);
      ReconcileKeepsLive(c, ws[i - 1], es[i - 1], ws[i], p);
    }
    if Converged(ws[i].fs, GoalOf(c, ws[0].st)) { ConvergedSees(ws[i].fs, GoalOf(c, ws[0].st)); }
  }

  lemma ReconcileKeepsLive(c: ServerConfig, w: World, e: Event, w': World, p: TpgPath)
    requires Step(c, w, e, w') && (e.Ticked? || e == Restarted(false)) && w.file == Holds(w.st)
    requires p in w.fs.tpgs && Reconciler.Live(p, w.st.pools)
    ensures w'.st == w.st && w'.file == w.file && p in w'.fs.tpgs
  {
    hide Reconciler.Live, Reconciler.DeadBesideLive, WellFormed, Managed, Converged, GoalOf, Reconciler.Progress;
  }

  /** Two saves that fail in a row, while pool 1 is deleted and made again under another name:
      the kernel is healthy, but not one that a restart from the file can repair. */
  lemma TwoLaggingSaves(c: ServerConfig) returns (ws: seq<World>, es: seq<Event>)
    ensures |es| == 2 && Run(c, ws, es) && Durable(c, ws[0])
    ensures Healthy(c, ws[2]) && ws[2].file == Holds(OnePool(1, "a")) && WellFormed(c, OnePool(1, "a"))
    ensures !Managed(ws[2].fs, GoalOf(c, OnePool(1, "a")))
    ensures !NamesAgree(OnePool(1, "a"), ws[2].st)
  {
    hide Healthy, Durable, WellFormed, Managed, GoalOf, NamesAgree, MachineWith, OnePool, Iqn,
      CreatePoolOutcome, DeletePoolOutcome,
      TargetOf, Reconciled;
    var a, b := StatePool(1, "a", map[]), StatePool(1, "b", map[]);
    var inn := CreatePoolRequest(Some(1), Some("b"));
    var file := Holds(OnePool(1, "a"));
    var w0 := World(MachineWith(c, a), OnePool(1, "a"), file);
    var w1 := World(EMPTY_MACHINE, EMPTY_STATE, file);
    var w2 := World(MachineWith(c, b), OnePool(1, "b"), file);
    var e0 := PoolDeleted(1, TargetOf(c, a), Internal, Ok);
    var e1 := PoolCreated(inn, 1, PoolInfo(1, Active, "b", Iqn(c.baseIqn, "b")), Internal);
    ws, es := [w0, w1, w2], [e0, e1];
    LaggingDelete(c, w0, w1, a);
    FirstPoolMade(c, w1, w2, inn, "b", Internal);
    OnePoolHealthy(c, 1, "a", file);
    OnePoolHealthy(c, 1, "b", file);
    SavedIsDurable(c, w0);
    StaleTarget(c, w2, a, b);
  }

  lemma LaggingDelete(c: ServerConfig, w: World, w': World, a: StatePool)
    requires a == StatePool(1, "a", map[]) && w == World(MachineWith(c, a), OnePool(1, "a"), w.file)
    requires w' == World(EMPTY_MACHINE, EMPTY_STATE, w.file)
    ensures DeletePoolOutcome(c, w, 1, TargetOf(c, a), w', Internal, Ok)
  {
    hide TpgName, Iqn;
    var p := TpgOf(TargetOf(c, a));
    assert w'.fs.tpgs == w.fs.tpgs - {p};
    assert DropPool(w.st, 1) == w'.st;
  }

  /** The first pool is made on a machine with nothing on it; saving it may fail. */
  lemma FirstPoolMade(c: ServerConfig, w: World, w': World, inn: CreatePoolRequest, name: string, code: Code)
    requires inn.poolName == Some(name) && w == World(EMPTY_MACHINE, EMPTY_STATE, w.file) && code in {OK, Internal}
    requires w' == World(MachineWith(c, StatePool(1, name, map[])), OnePool(1, name), w'.file)
    requires w'.file == if code == OK then Holds(w'.st) else w.file
    ensures CreatePoolOutcome(c, w, inn, 1, w', PoolInfo(1, Active, name, Iqn(c.baseIqn, name)), code)
  {
    hide TpgName, Iqn;
    var pool := StatePool(1, name, map[]);
    var p := TpgOf(TargetOf(c, pool));
    assert NewPool(inn, 1) == pool;
    assert w'.fs.tpgs == w.fs.tpgs[p := EXPORTED];
    assert w'.st == PutPool(w.st, pool);
  }

  lemma StaleTarget(c: ServerConfig, w: World, a: StatePool, b: StatePool)
    requires a == StatePool(1, "a", map[]) && b == StatePool(1, "b", map[])
    requires w.fs == MachineWith(c, b) && w.st == OnePool(1, "b") && Healthy(c, w) && WellFormed(c, OnePool(1, "a"))
    ensures !Managed(w.fs, GoalOf(c, OnePool(1, "a"))) && !NamesAgree(OnePool(1, "a"), w.st)
  {
    hide Managed, GoalOf, WellFormed, TpgName, ClearDevs, ClearLinks, Tidy;
    var r := OnePool(1, "a");
    var p := TpgOf(TargetOf(c, b));
    assert PoolNameOf(c.baseIqn, p.iqn) == "b" && PoolNameOf(c.baseIqn, PoolTpg(c, r, 1).iqn) == "a";
    assert p in w.fs.tpgs && 1 in r.pools && 1 in w.st.pools;
    assert !ClearTargets(c, w.fs, r);
    ManagedIffClear(c, w.fs, r);
  }

  // A storage class that remembers a lost pool.

  /** After a restart from the file a class that remembers a pool is still bound exactly when the
      file has that pool under the class's name. */
  lemma ReloadStaysBoundIff(c: ServerConfig, r: State, name: string, annotations: K8sProvisioner.Annotations, p: u16)
    requires WellFormed(c, r)
    requires K8sProvisioner.Lookup(annotations, K8sProvisioner.ANNOTATION_POOL_ID) == Dec(p)
    ensures K8sProvisioner.Bound(r, name, annotations, annotations) <==> K8sProvisioner.NamedPool(r, p, name)
  {
    hide Dec, IdsApart, FilesApart, VolumesNamed;
    assert K8sProvisioner.ParseNumber(Dec(p)) == Some(p);
    if K8sProvisioner.Bound(r, name, annotations, annotations) {
      K8sProvisioner.BoundParses(r, name, annotations, annotations);
      PrintsSomething(p);
    }
  }

  lemma PrintsSomething(n: nat)
    ensures Dec(n) != ""
  {
  }

  /** A pool is made but not saved, the machine starts again, and another pool takes the id. */
  lemma UnsavedPool(c: ServerConfig) returns (ws: seq<World>, es: seq<Event>)
    ensures |es| == 3 && |ws| == 4 && Run(c, ws, es) && Durable(c, ws[0])
    ensures es[0].PoolCreated? && es[0].code == Internal && es[1] == Restarted(true)
    ensures es[2].PoolCreated? && es[2].code == OK
    ensures ws[1].st == OnePool(1, "data") && ws[2].st == EMPTY_STATE && ws[3].st == OnePool(1, "other")
  {
    hide Durable, WellFormed, Managed, GoalOf, MachineWith, OnePool, Iqn, CreatePoolOutcome, Reconciled, Converged,
      Rebooted;
    var file := Holds(EMPTY_STATE);
    var data, other := CreatePoolRequest(None, Some("data")), CreatePoolRequest(None, Some("other"));
    var w0 := World(EMPTY_MACHINE, EMPTY_STATE, file);
    var w1 := World(MachineWith(c, StatePool(1, "data", map[])), OnePool(1, "data"), file);
    var w3 := World(MachineWith(c, StatePool(1, "other", map[])), OnePool(1, "other"), Holds(OnePool(1, "other")));
    var e0 := PoolCreated(data, 1, PoolInfo(1, Active, "data", Iqn(c.baseIqn, "data")), Internal);
    var e2 := PoolCreated(other, 1, PoolInfo(1, Active, "other", Iqn(c.baseIqn, "other")), OK);
    ws, es := [w0, w1, w0, w3], [e0, Restarted(true), e2];
    NothingIsDurable(c, file);
    FirstPoolMade(c, w0, w1, data, "data", Internal);
    RebootsToNothing(c, w1, w0);
    FirstPoolMade(c, w0, w3, other, "other", OK);
  }

  /** The class's pool is made but not saved, and the class remembers it; the machine starts
      again, another pool takes the id, and the next volume for the class lands there. */
  lemma LostPool(c: ServerConfig, annotations: K8sProvisioner.Annotations, claim: K8sProvisioner.Claim, pvName: string)
    returns (ws: seq<World>, es: seq<Event>)
    requires K8sProvisioner.Lookup(annotations, K8sProvisioner.ANNOTATION_POOL_ID) == Dec(1)
    ensures |es| == 3 && Run(c, ws, es) && Durable(c, ws[0])
    ensures es[0].PoolCreated? && es[0].code == Internal && es[1] == Restarted(true)
    ensures es[2].PoolCreated? && es[2].code == OK
    ensures K8sProvisioner.Bound(ws[1].st, "data", annotations, annotations)
    ensures !K8sProvisioner.Bound(ws[2].st, "data", annotations, annotations)
    ensures K8sProvisioner.Recorded(Dec(1)) == Some(1) && K8sProvisioner.NamedPool(ws[3].st, 1, "other")
    ensures forall id, scan, res, w |
              Step(c, ws[3], VolumeCreated(K8sProvisioner.VolumeRequest(claim, pvName, 1), id, scan, res, OK), w) ::
              VolKey(1, id) in VolKeys(w.st) && K8sProvisioner.NamedPool(w.st, 1, "other")
  {
    hide Durable, Run, WellFormed, Dec, CreateVolumeOutcome, K8sProvisioner.Bound, K8sProvisioner.Recorded,
      K8sProvisioner.Lookup, ScannedBackstores, NextAfter, VolKeys;
    ws, es := UnsavedPool(c);
    OnePoolHealthy(c, 1, "data", Absent);
    ReloadStaysBoundIff(c, ws[1].st, "data", annotations, 1);
    NothingIsDurable(c, Holds(EMPTY_STATE));
    ReloadStaysBoundIff(c, ws[2].st, "data", annotations, 1);
    RecordsOne();
    var w3, inn := ws[3], K8sProvisioner.VolumeRequest(claim, pvName, 1);
    forall id, scan, res, w | Step(c, w3, VolumeCreated(inn, id, scan, res, OK), w)
      ensures VolKey(1, id) in VolKeys(w.st) && K8sProvisioner.NamedPool(w.st, 1, "other")
    {
      LandsInOther(c, w3, inn, id, res, w);
    }
  }

  lemma RecordsOne()
    ensures K8sProvisioner.Recorded(Dec(1)) == Some(1)
  {
    hide Dec;
    PrintsSomething(1);
    assert K8sProvisioner.ParseNumber(Dec(1)) == Some(1);
  }

  lemma RebootsToNothing(c: ServerConfig, w: World, w': World)
    requires w == World(MachineWith(c, StatePool(1, "data", map[])), OnePool(1, "data"), Holds(EMPTY_STATE))
    requires w' == World(EMPTY_MACHINE, EMPTY_STATE, Holds(EMPTY_STATE))
    ensures Step(c, w, Restarted(true), w')
  {
    hide Managed, GoalOf, Converged, WellFormed, Tidy, Clear, Toward;
    var a, b := Rebooted(w.fs), EMPTY_MACHINE;
    var w0 := World(a, EMPTY_STATE, Absent);
    assert b == a.(root := true);
    FirstStartIsDurable(c);
    DurableIsHealthy(c, w0);
    Guarantees.HealthyParts(c, w0);
    NothingIsDurable(c, w'.file);
    NothingIsConverged(c);
    NothingHasSerials(c, a, b);
    Guarantees.HealthyParts(c, w');
    Reconciler.RootSpares(a, b, c.baseIqn, Reconciler.VolumeFiles(c, EMPTY_STATE));
    Steps.RootStep(a, b, GoalOf(c, EMPTY_STATE));
  }

  lemma LandsInOther(
      c: ServerConfig, w: World, inn: CreateVolumeRequest, id: u16, res: VolumeInfo, w': World)
    requires CreateVolumeOutcome(c, w, inn, id, w', res, OK) && inn.poolId == 1 && w.st == OnePool(1, "other")
    ensures VolKey(1, id) in VolKeys(w'.st) && K8sProvisioner.NamedPool(w'.st, 1, "other")
  {
    hide VolumePut, MadeInOrder, VolumeMade, Fs.Wf, Saved;
    VolumeIsPut(c, w, inn, id, w', res, OK);
    Guarantees.NewlyRegistered(w.st, 1, NewVolume(inn, id), id);
  }

  // A delete that is stopped late.

  function OneVolume(): State {
    State(1, map[1 := StatePool(1, "data", map[1 := StateVolume(1, "v", 0, 1)])])
  }

  /** The only volume's delete is stopped when its backstore is gone but its file is not: the
      volume stays registered, the next scan finds nothing, and the id it allocates is refused. */
  lemma StoppedDeleteBlocksAllocation(c: ServerConfig, w: World, w': World, t: Target)
    requires w.st == OneVolume() && t == TargetOf(c, w.st.pools[1]) && w.fs.Wf()
    requires w.fs.luns == {LunOf(t, 1)}
    requires w.fs.links == map[LinkPath(LunOf(t, 1), "v") := DevPath(HbaName(FILEIO, 1), "v")]
    requires w.fs.devs.Keys == {DevPath(HbaName(FILEIO, 1), "v")} && w.fs.hbas == {HbaName(FILEIO, 1)}
    requires w' == w.(fs := w.fs.(luns := {}, links := map[], devs := map[], hbas := {}))
    ensures DeleteVolumeOutcome(c, w, DeleteVolumeRequest(1, 1), t, FILEIO, w', Aborted, Fault)
    ensures ScannedBackstores(w'.fs, []) && NextAfter([], w'.st.maxLunId, 1)
    ensures VolumeConflict(w'.st.pools[1], 1)
  {
    hide HbaName, TpgOf, LunName, ImagePath;
    assert w.fs.luns - {LunOf(t, 1)} == {} && w.fs.hbas - {HbaName(FILEIO, 1)} == {};
    var v: u16 := 1;
    assert v in w.st.pools[1].volumes && w.st.pools[1].volumes[v].id == 1;
  }
}
