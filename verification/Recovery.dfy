/** What calls do to a healthy server: stopped anywhere or finished, they leave one that the
    next reconcile can bring to the registry as it then is. */
module Recovery {
  import opened Types
  import opened Names
  import opened KernelTree
  import opened Frames
  import opened Convergence
  import opened Registry
  import opened Outcomes

  // Tidy kernels: what this server leaves behind, whatever it has registered.

  /** Under this server's base name every name is one it writes, and a portal group is alone in
      its target directory. */
  ghost predicate TidyTargets(base: string, fs: Fs) {
    && (forall p | p in fs.tpgs && Ours(base, p.iqn) :: CanonTpg(p.tpg))
    && (forall p, q | p in fs.tpgs && q in fs.tpgs && Ours(base, p.iqn) && q.iqn == p.iqn :: q == p)
  }

  ghost predicate TidyLuns(base: string, fs: Fs) {
    && (forall l | l in fs.luns && Ours(base, l.tpg.iqn) :: CanonLun(l.lun))
    && (forall x | x in fs.links :: Ours(base, x.lun.tpg.iqn))
  }

  /** The link leads from a LUN to the fileio backstore of the same number, under its name. */
  predicate LinkTidy(x: LinkPath, d: DevPath) {
    CanonLun(x.lun.lun) && d.hba == HbaName(FILEIO, ParseLun(x.lun.lun).id) && x.name == d.name
  }

  ghost predicate TidyLinks(fs: Fs) {
    forall x | x in fs.links :: LinkTidy(x, fs.links[x])
  }

  ghost predicate TidyDevs(fs: Fs) {
    && (forall h | h in fs.hbas :: !ParseHba(h).BadHba? && (ParseHba(h).Hba? ==> CanonHba(h)))
    && (forall c, d | c in fs.devs && d in fs.devs && Listable(d) && c.hba == d.hba :: c == d)
  }

  ghost predicate Tidy(base: string, fs: Fs) {
    fs.Wf() && TidyTargets(base, fs) && TidyLuns(base, fs) && TidyLinks(fs) && TidyDevs(fs)
  }

  // Clear kernels: nothing stands under an id of the registry that is not what it registers.

  ghost predicate ClearTargets(c: ServerConfig, fs: Fs, s: State) {
    forall p, q | p in fs.tpgs && q in s.pools && Ours(c.baseIqn, p.iqn) && p.tpg == PoolTpg(c, s, q).tpg ::
      p == PoolTpg(c, s, q)
  }

  ghost predicate ClearDevs(fs: Fs, s: State) {
    forall d, k | d in fs.devs && k in VolKeys(s) && d.hba == VolDev(s, k).hba :: d == VolDev(s, k)
  }

  ghost predicate ClearLinks(c: ServerConfig, fs: Fs, s: State) {
    forall x, k | x in fs.links && k in VolKeys(s) && fs.links[x].hba == VolDev(s, k).hba :: x.lun == VolLun(c, s, k)
  }

  ghost predicate Clear(c: ServerConfig, fs: Fs, s: State) {
    ClearTargets(c, fs, s) && ClearDevs(fs, s) && ClearLinks(c, fs, s)
  }

  ghost predicate Healthy(c: ServerConfig, w: World) {
    WellFormed(c, w.st) && Tidy(c.baseIqn, w.fs) && Clear(c, w.fs, w.st)
  }

  // Healthy kernels are managed.

  lemma TidyTargetsManaged(c: ServerConfig, fs: Fs, s: State)
    requires WellFormed(c, s) && TidyTargets(c.baseIqn, fs) && ClearTargets(c, fs, s)
    ensures ManagedTargets(fs, GoalOf(c, s))
  {
    hide TpgName, Ours, CanonTpg, WantLuns, WantDevs, WantFloors, NamesApart, IdsApart, FilesApart,
      VolumesNamed, WellKeyed, PoolTpg;
    var g := GoalOf(c, s);
    forall p, q | p in fs.tpgs && Ours(g.base, p.iqn) && q in g.tpgs && q.tpg == p.tpg ensures p == q {
      var n :| n in s.pools && q == PoolTpg(c, s, n);
    }
  }

  lemma TidyLunsManaged(c: ServerConfig, fs: Fs, s: State)
    requires WellFormed(c, s) && fs.Wf() && TidyLuns(c.baseIqn, fs) && TidyLinks(fs) && ClearDevs(fs, s)
    ensures ManagedLuns(fs, GoalOf(c, s))
  {
    hide TpgOf, HbaName, Ours, ParseLun, CanonLun, LunName, WantTpgs, WantDevs, WantFloors, NamesApart, IdsApart,
      FilesApart, VolumesNamed, VolKeys, VolDev, VolLun, WellKeyed;
    var g := GoalOf(c, s);
    forall x | x in fs.links && x.lun in g.luns ensures g.WantsLink(x, fs.links[x]) {
      var k :| k in VolKeys(s) && x.lun == VolLun(c, s, k);
      LunToHba(c, s, k);
      assert fs.links[x].hba == VolDev(s, k).hba;
    }
  }

  lemma LunToHba(c: ServerConfig, s: State, k: VolKey)
    requires WellKeyed(s) && k in VolKeys(s)
    ensures ParseLun(VolLun(c, s, k).lun) == Num(k.vol) && VolDev(s, k).hba == HbaName(FILEIO, k.vol)
    ensures CanonLun(VolLun(c, s, k).lun)
  {
    hide HbaName, TpgOf;
  }

  lemma TidyDevsManaged(c: ServerConfig, fs: Fs, s: State)
    requires WellFormed(c, s) && TidyDevs(fs) && ClearDevs(fs, s)
    ensures ManagedDevs(fs, GoalOf(c, s))
  {
    hide HbaName, ParseHba, CanonHba, WantTpgs, WantLuns, WantFloors, NamesApart, IdsApart, FilesApart, VolumesNamed,
      VolKeys, VolDev, WellKeyed;
    var g := GoalOf(c, s);
    forall e, d | e in fs.devs && d in g.devs && e.hba == d.hba ensures e == d {
      var k :| k in VolKeys(s) && d == VolDev(s, k);
    }
  }

  /** A reconcile can repair a healthy server's kernel; the links of other LUNs do not matter. */
  lemma HealthyIsManaged(c: ServerConfig, fs: Fs, s: State)
    requires WellFormed(c, s) && Tidy(c.baseIqn, fs) && ClearTargets(c, fs, s) && ClearDevs(fs, s)
    ensures GoalOf(c, s).Wf() && Managed(fs, GoalOf(c, s))
  {
    hide WellFormed, GoalOf, TidyTargets, TidyLuns, TidyLinks, TidyDevs, ClearTargets, ClearDevs,
      ManagedTargets, ManagedLuns,
      ManagedDevs, Goal.Wf, Fs.Wf;
    GoalIsWf(c, s);
    TidyTargetsManaged(c, fs, s);
    TidyLunsManaged(c, fs, s);
    TidyDevsManaged(c, fs, s);
  }

  // Managed kernels are tidy and clear, but for links of LUNs nobody wants.

  lemma ManagedTargetsTidy(c: ServerConfig, fs: Fs, s: State)
    requires WellFormed(c, s) && GoalOf(c, s).Wf() && ManagedTargets(fs, GoalOf(c, s))
    ensures TidyTargets(c.baseIqn, fs) && ClearTargets(c, fs, s)
  {
    hide TpgName, Ours, CanonTpg, WantLuns, WantDevs, WantFloors, NamesApart, IdsApart, FilesApart,
      VolumesNamed, WellKeyed, PoolTpg;
    var g := GoalOf(c, s);
    forall p, q | p in fs.tpgs && q in fs.tpgs && Ours(g.base, p.iqn) && q.iqn == p.iqn ensures q == p {
      if p in g.tpgs && q in g.tpgs { assert p.iqn == q.iqn; }
    }
    forall n | n in s.pools ensures PoolTpg(c, s, n) in g.tpgs {
    }
  }

  lemma ManagedDevsTidy(c: ServerConfig, fs: Fs, s: State)
    requires WellFormed(c, s) && ManagedDevs(fs, GoalOf(c, s))
    ensures TidyDevs(fs) && ClearDevs(fs, s)
  {
    hide HbaName, ParseHba, CanonHba, WantTpgs, WantLuns, WantFloors, NamesApart, IdsApart, FilesApart, VolumesNamed,
      VolKeys, VolDev, WellKeyed;
    var g := GoalOf(c, s);
    forall k | k in VolKeys(s) ensures VolDev(s, k) in g.devs {
    }
  }

  /** Given a kernel that this server left tidy, a reconcile can bring it to a registry exactly
      when no portal group and no device stands under one of its ids with another name. */
  lemma ManagedIffClear(c: ServerConfig, fs: Fs, s: State)
    requires WellFormed(c, s) && Tidy(c.baseIqn, fs)
    ensures Managed(fs, GoalOf(c, s)) <==> ClearTargets(c, fs, s) && ClearDevs(fs, s)
  {
    hide WellFormed, GoalOf, TidyTargets, TidyLuns, TidyLinks, TidyDevs, ClearTargets, ClearDevs,
      ManagedTargets, ManagedLuns,
      ManagedDevs, Goal.Wf, Fs.Wf;
    GoalIsWf(c, s);
    if Managed(fs, GoalOf(c, s)) {
      ManagedTargetsTidy(c, fs, s);
      ManagedDevsTidy(c, fs, s);
    }
    if ClearTargets(c, fs, s) && ClearDevs(fs, s) { HealthyIsManaged(c, fs, s); }
  }

  // Removing things.

  ghost predicate Shrunk(a: Fs, b: Fs) {
    && b.tpgs.Keys <= a.tpgs.Keys
    && b.luns <= a.luns
    && LinksCut(a.links, b.links)
    && b.hbas <= a.hbas
    && b.devs.Keys <= a.devs.Keys
  }

  /** A call that registers nothing and adds nothing to the tree leaves a healthy server. */
  lemma ShrunkStaysHealthy(c: ServerConfig, w: World, w': World)
    requires Healthy(c, w) && Shrunk(w.fs, w'.fs) && w'.fs.Wf() && w'.st.pools == w.st.pools
    ensures Healthy(c, w') && SubState(w'.st, w.st)
  {
    hide Tidy, Clear, WellFormed, Fs.Wf, Shrunk;
    ShrunkStaysTidy(c.baseIqn, w.fs, w'.fs);
    ShrunkStaysClear(c, w.fs, w'.fs, w.st);
    SamePoolsStayHealthy(c, w'.fs, w.st, w'.st);
  }

  lemma ShrunkStaysTidy(base: string, a: Fs, b: Fs)
    requires Tidy(base, a) && Shrunk(a, b) && b.Wf()
    ensures Tidy(base, b)
  {
    hide Fs.Wf, Ours, CanonTpg, CanonLun, CanonHba, ParseHba, LinkTidy;
  }

  lemma ShrunkStaysClear(c: ServerConfig, a: Fs, b: Fs, r: State)
    requires Clear(c, a, r) && Shrunk(a, b)
    ensures Clear(c, b, r)
  {
    hide Ours, VolKeys, VolDev, VolLun, PoolTpg;
  }

  /** `t` is part of `s`. */
  ghost predicate SubState(t: State, s: State) {
    && t.pools.Keys <= s.pools.Keys
    && forall p | p in t.pools ::
         && t.pools[p].id == s.pools[p].id && t.pools[p].name == s.pools[p].name
         && t.pools[p].volumes.Keys <= s.pools[p].volumes.Keys
         && forall v | v in t.pools[p].volumes :: t.pools[p].volumes[v] == s.pools[p].volumes[v]
  }

  lemma SubStateKeys(t: State, s: State)
    requires SubState(t, s)
    ensures VolKeys(t) <= VolKeys(s)
    ensures forall k | k in VolKeys(t) :: VolOf(t, k) == VolOf(s, k)
  {
  }

  lemma SubStateIsWellFormed(c: ServerConfig, t: State, s: State)
    requires WellFormed(c, s) && SubState(t, s)
    ensures WellFormed(c, t)
  {
    SubStateKeys(t, s);
    assert WellKeyed(t);
    assert NamesApart(t);
    assert forall k | k in VolKeys(t) :: VolFile(c, t, k) == VolFile(c, s, k);
  }

  lemma SameVolume(c: ServerConfig, t: State, s: State, k: VolKey)
    requires SubState(t, s) && k in VolKeys(t)
    ensures k in VolKeys(s)
    ensures VolLun(c, t, k) == VolLun(c, s, k) && VolDev(t, k) == VolDev(s, k) && VolFile(c, t, k) == VolFile(c, s, k)
  {
    hide TpgOf, HbaName, LunName, ImagePath;
    SubStateKeys(t, s);
  }

  lemma SubStateStaysClear(c: ServerConfig, fs: Fs, t: State, s: State)
    requires Clear(c, fs, s) && SubState(t, s)
    ensures Clear(c, fs, t)
  {
    hide Ours, VolKeys, VolDev, VolLun, TpgOf;
    forall k | k in VolKeys(t)
      ensures k in VolKeys(s) && VolDev(t, k) == VolDev(s, k) && VolLun(c, t, k) == VolLun(c, s, k)
    {
      SameVolume(c, t, s, k);
    }
  }

  // Adding a pool.

  lemma NewKeysOfPool(s: State, pool: StatePool)
    requires pool.id !in s.pools && pool.volumes == map[]
    ensures VolKeys(PutPool(s, pool)) == VolKeys(s)
    ensures SubState(s, PutPool(s, pool))
  {
  }

  lemma PutPoolWellFormed(c: ServerConfig, s: State, pool: StatePool)
    requires WellFormed(c, s) && pool.id !in s.pools && pool.id != 0 && pool.volumes == map[]
    requires forall p | p in s.pools :: s.pools[p].name != pool.name
    ensures WellFormed(c, PutPool(s, pool))
  {
    var t := PutPool(s, pool);
    NewKeysOfPool(s, pool);
    assert WellKeyed(t) && NamesApart(t);
    assert forall k | k in VolKeys(t) :: VolFile(c, t, k) == VolFile(c, s, k) && VolOf(t, k) == VolOf(s, k);
  }

  /** The registry does not have the pool's id under another name. */
  predicate NoPoolClash(r: State, pool: StatePool) {
    pool.id in r.pools ==> r.pools[pool.id].id == pool.id && r.pools[pool.id].name == pool.name
  }

  lemma PutTargetStaysTidy(base: string, a: Fs, b: Fs, p: TpgPath)
    requires Tidy(base, a) && b.Wf() && TargetPut(a, b, p) && CanonTpg(p.tpg) && AloneInIqn(a, p)
    ensures Tidy(base, b)
  {
    hide Fs.Wf, CanonTpg, CanonLun, CanonHba, ParseHba, Ours, LinkTidy;
  }

  lemma SamePoolTarget(c: ServerConfig, r: State, pool: StatePool)
    requires WellKeyed(r) && NoPoolClash(r, pool)
    ensures forall q | q in r.pools && TpgOf(TargetOf(c, pool)).tpg == PoolTpg(c, r, q).tpg ::
            PoolTpg(c, r, q) == TpgOf(TargetOf(c, pool))
  {
    forall q | q in r.pools && TpgName(pool.id) == PoolTpg(c, r, q).tpg
      ensures PoolTpg(c, r, q) == TpgOf(TargetOf(c, pool))
    {
      assert ParseTpg(TpgName(pool.id)) == Num(pool.id) && ParseTpg(PoolTpg(c, r, q).tpg) == Num(q);
    }
  }

  lemma PutTargetStaysClear(c: ServerConfig, a: Fs, b: Fs, r: State, pool: StatePool)
    requires WellKeyed(r) && Clear(c, a, r) && TargetPut(a, b, TpgOf(TargetOf(c, pool))) && NoPoolClash(r, pool)
    ensures Clear(c, b, r)
  {
    hide Ours, VolKeys, VolDev, VolLun, TpgOf, PoolTpg, WellKeyed, NoPoolClash;
    SamePoolTarget(c, r, pool);
  }

  /** What the kernel has of this server under the pool's id or target name is the pool's own
      portal group: none, or the one that an earlier attempt left. */
  ghost predicate OwnTarget(c: ServerConfig, fs: Fs, pool: StatePool) {
    var own := TpgOf(TargetOf(c, pool));
    forall p | p in fs.tpgs && Ours(c.baseIqn, p.iqn) && (p.tpg == own.tpg || p.iqn == own.iqn) :: p == own
  }

  /** The requested name is not in use, and what the kernel has under id or name is the pool's own. */
  ghost predicate FreshPool(c: ServerConfig, w: World, inn: CreatePoolRequest, id: u16) {
    var pool := NewPool(inn, id);
    && id != 0
    && (forall p | p in w.st.pools :: w.st.pools[p].name != pool.name)
    && OwnTarget(c, w.fs, pool)
  }

  lemma NewPoolIsClear(c: ServerConfig, a: Fs, b: Fs, s: State, pool: StatePool)
    requires WellKeyed(s) && Clear(c, b, s) && TargetPut(a, b, TpgOf(TargetOf(c, pool))) && OwnTarget(c, a, pool)
    requires pool.id !in s.pools && pool.volumes == map[]
    ensures Clear(c, b, PutPool(s, pool))
  {
    hide Ours, VolKeys, VolDev, VolLun;
    var t := PutPool(s, pool);
    NewKeysOfPool(s, pool);
    forall k | k in VolKeys(t) ensures VolDev(t, k) == VolDev(s, k) && VolLun(c, t, k) == VolLun(c, s, k) {
      SameVolume(c, s, t, k);
    }
  }

  lemma PoolTarget(c: ServerConfig, pool: StatePool)
    ensures CanonTpg(TpgOf(TargetOf(c, pool)).tpg) && Ours(c.baseIqn, TpgOf(TargetOf(c, pool)).iqn)
  {
  }

  lemma OwnTargetIsAlone(c: ServerConfig, fs: Fs, pool: StatePool)
    requires OwnTarget(c, fs, pool)
    ensures AloneInIqn(fs, TpgOf(TargetOf(c, pool)))
  {
    hide Ours, TpgOf;
    PoolTarget(c, pool);
  }

  lemma IdIsNew(s: State, inn: CreatePoolRequest, id: u16)
    requires WellKeyed(s) && !PoolConflict(s, inn, id)
    ensures id !in s.pools
  {
    forall q | q in s.pools ensures q != id { assert s.pools[q].id == q; }
  }

  /** What creating a pool takes: to register it, an id and a name that nobody else has; to make
      its portal group and abort, that no other group is in the target directory; and else
      nothing. */
  ghost predicate FreshPoolCall(c: ServerConfig, w: World, inn: CreatePoolRequest, id: u16, w': World, code: Code) {
    && (code in {OK, Internal} ==> FreshPool(c, w, inn, id))
    && (!Shrunk(w.fs, w'.fs) ==> AloneInIqn(w.fs, TpgOf(TargetOf(c, NewPool(inn, id)))))
  }

  /** Then, stopped anywhere or not, the call leaves a healthy server. */
  lemma CreatePoolStaysHealthy(
      c: ServerConfig, w: World, inn: CreatePoolRequest, id: u16, w': World, res: PoolInfo, code: Code)
    requires Healthy(c, w) && CreatePoolOutcome(c, w, inn, id, w', res, code)
    requires FreshPoolCall(c, w, inn, id, w', code)
    ensures Healthy(c, w')
  {
    hide Tidy, Clear, TargetPut, TpgOf, Fs.Wf, WellFormed, NewPool, PutPool, PoolConflict, OwnTarget, AloneInIqn,
      Shrunk;
    var pool := NewPool(inn, id);
    SameIsShrunk(w.fs, w'.fs);
    if code !in {OK, Internal} && Shrunk(w.fs, w'.fs) {
      ShrunkStaysHealthy(c, w, w');
    } else {
      NewPoolIs(inn, id);
      WellFormedParts(c, w.st);
      IdIsNew(w.st, inn, id);
      PoolTarget(c, pool);
      if code in {OK, Internal} { OwnTargetIsAlone(c, w.fs, pool); }
      PutTargetStaysTidy(c.baseIqn, w.fs, w'.fs, TpgOf(TargetOf(c, pool)));
      PutTargetStaysClear(c, w.fs, w'.fs, w.st, pool);
      if code in {OK, Internal} {
        PutPoolWellFormed(c, w.st, pool);
        NewPoolIsClear(c, w.fs, w'.fs, w.st, pool);
      }
    }
  }

  lemma SameIsShrunk(a: Fs, b: Fs)
    ensures b == a ==> Shrunk(a, b)
  {
  }

  lemma NewPoolIs(inn: CreatePoolRequest, id: u16)
    ensures NewPool(inn, id).id == id && NewPool(inn, id).volumes == map[]
  {
  }

  lemma WellFormedParts(c: ServerConfig, s: State)
    requires WellFormed(c, s)
    ensures WellKeyed(s) && IdsApart(s)
  {
  }

  // Deleting.

  lemma DeletePoolStaysHealthy(
      c: ServerConfig, w: World, id: u32, t: Target, w': World, code: Code, cause: Err)
    requires Healthy(c, w) && DeletePoolOutcome(c, w, id, t, w', code, cause)
    ensures Healthy(c, w') && Shrunk(w.fs, w'.fs) && SubState(w'.st, w.st)
  {
    hide Tidy, Clear, WellFormed, Fs.Wf, TpgOf, LegibleLuns, AloneInIqn;
    ShrunkStaysTidy(c.baseIqn, w.fs, w'.fs);
    ShrunkStaysClear(c, w.fs, w'.fs, w.st);
    assert SubState(w'.st, w.st);
    SubStateIsWellFormed(c, w'.st, w.st);
    SubStateStaysClear(c, w'.fs, w'.st, w.st);
  }

  lemma DeleteVolumeStaysHealthy(
      c: ServerConfig, w: World, inn: DeleteVolumeRequest, t: Target, kind: string, w': World, code: Code, cause: Err)
    requires Healthy(c, w) && DeleteVolumeOutcome(c, w, inn, t, kind, w', code, cause)
    ensures Healthy(c, w') && Shrunk(w.fs, w'.fs) && SubState(w'.st, w.st)
  {
    hide Tidy, Clear, WellFormed, Fs.Wf, LunOf, HbaName, ImagePath, OnlyLinksFrom, Saved;
    WellFormedParts(c, w.st);
    ShrunkStaysTidy(c.baseIqn, w.fs, w'.fs);
    ShrunkStaysClear(c, w.fs, w'.fs, w.st);
    assert SubState(w'.st, w.st);
    SubStateIsWellFormed(c, w'.st, w.st);
    SubStateStaysClear(c, w'.fs, w'.st, w.st);
  }

  // Adding a volume.

  lemma NewKeysOfVolume(s: State, p: u16, volume: StateVolume)
    requires p in s.pools && volume.id !in s.pools[p].volumes
    ensures VolKeys(PutVolume(s, p, volume)) == VolKeys(s) + {VolKey(p, volume.id)}
    ensures SubState(s, PutVolume(s, p, volume))
    ensures VolOf(PutVolume(s, p, volume), VolKey(p, volume.id)) == volume
  {
    var t := PutVolume(s, p, volume);
    forall k ensures k in VolKeys(t) <==> k in VolKeys(s) + {VolKey(p, volume.id)} {
      if k in VolKeys(t) && k !in VolKeys(s) {
        assert k == VolKey(p, volume.id);
      }
      if k == VolKey(p, volume.id) {
        assert k.pool in t.pools && k.vol in t.pools[k.pool].volumes;
      }
    }
  }

  /** The new volume's id and disk file are not in use. */
  predicate FreshVolume(c: ServerConfig, s: State, p: u16, volume: StateVolume)
    requires p in s.pools
  {
    && volume.id != 0
    && (forall k | k in VolKeys(s) :: k.vol != volume.id)
    && (forall k | k in VolKeys(s) :: VolFile(c, s, k) != FileOf(c, s.pools[p], volume))
  }

  lemma PutVolumeWellFormed(c: ServerConfig, s: State, p: u16, volume: StateVolume)
    requires WellFormed(c, s) && p in s.pools && FreshVolume(c, s, p, volume) && volume.name != ""
    ensures volume.id !in s.pools[p].volumes
    ensures WellFormed(c, PutVolume(s, p, volume))
  {
    hide ImagePath;
    var t := PutVolume(s, p, volume);
    var n := VolKey(p, volume.id);
    NewKeysOfVolume(s, p, volume);
    assert WellKeyed(t);
    assert NamesApart(t);
    forall k | k in VolKeys(s) ensures VolOf(t, k) == VolOf(s, k) && VolFile(c, t, k) == VolFile(c, s, k) {
      SubStateKeys(s, t);
    }
    assert VolFile(c, t, n) == FileOf(c, s.pools[p], volume);
    assert IdsApart(t);
    assert FilesApart(c, t);
    assert VolumesNamed(t);
  }

  /** The kernel has no device under the id and no LUN with the id in the pool's target, which exists. */
  ghost predicate FreeExport(c: ServerConfig, fs: Fs, pool: StatePool, volume: StateVolume) {
    && TpgOf(TargetOf(c, pool)) in fs.tpgs
    && LunOf(TargetOf(c, pool), volume.id) !in fs.luns
    && (forall d | d in fs.devs :: d.hba != HbaName(FILEIO, volume.id))
  }

  /** What the kernel has in the pool's target directory and under the volume's id is the pool's
      and the volume's own: nothing, or what an earlier attempt left. */
  ghost predicate OwnExport(c: ServerConfig, fs: Fs, pool: StatePool, volume: StateVolume) {
    && AloneInIqn(fs, TpgOf(TargetOf(c, pool)))
    && (forall d | d in fs.devs && d.hba == DeviceOf(volume).hba :: d == DeviceOf(volume))
    && OnlyLinksFrom(fs, DeviceOf(volume).hba, LunOf(TargetOf(c, pool), volume.id))
  }

  /** In a tidy kernel nothing is in the way where there is nothing. */
  lemma FreeIsOwn(c: ServerConfig, fs: Fs, pool: StatePool, volume: StateVolume)
    requires Tidy(c.baseIqn, fs) && FreeExport(c, fs, pool, volume)
    ensures OwnExport(c, fs, pool, volume)
  {
    hide TidyLuns, TidyLinks, TidyDevs, CanonTpg, Ours, TpgOf, HbaName, LunName;
    PoolTarget(c, pool);
  }

  /** If the registry has the volume's id, it is for this volume in this pool. */
  predicate NoVolumeClash(r: State, pool: StatePool, volume: StateVolume) {
    forall k | k in VolKeys(r) && k.vol == volume.id ::
      k.pool == pool.id && r.pools[k.pool].name == pool.name && VolOf(r, k).name == volume.name
  }

  lemma PutVolumeStaysTidy(c: ServerConfig, a: Fs, b: Fs, pool: StatePool, volume: StateVolume)
    requires Tidy(c.baseIqn, a) && b.Wf() && VolumePut(c, a, b, pool, volume) && OwnExport(c, a, pool, volume)
    ensures Tidy(c.baseIqn, b)
  {
    hide Fs.Wf, FileTouched, ImagePath, TidyTargets, TidyLuns, TidyDevs, TidyLinks, TargetPut;
    PutVolumeTargets(c, a, b, pool, volume);
    PutVolumeLuns(c, a, b, pool, volume);
    PutVolumeDevs(c, a, b, pool, volume);
  }

  lemma PutVolumeTargets(c: ServerConfig, a: Fs, b: Fs, pool: StatePool, volume: StateVolume)
    requires TidyTargets(c.baseIqn, a) && VolumePut(c, a, b, pool, volume) && OwnExport(c, a, pool, volume)
    ensures TidyTargets(c.baseIqn, b)
  {
    hide HbaName, TpgOf, LunName, ImagePath, CanonTpg, Ours, FileTouched, BackstorePut;
    PoolTarget(c, pool);
  }

  lemma PutVolumeLuns(c: ServerConfig, a: Fs, b: Fs, pool: StatePool, volume: StateVolume)
    requires TidyLuns(c.baseIqn, a) && TidyLinks(a) && VolumePut(c, a, b, pool, volume)
    ensures TidyLuns(c.baseIqn, b) && TidyLinks(b)
  {
    hide HbaName, TpgName, ImagePath, FileTouched, BackstorePut, TargetPut;
    var l := LunOf(TargetOf(c, pool), volume.id);
    assert CanonLun(l.lun) && ParseLun(l.lun) == Num(volume.id) && Ours(c.baseIqn, l.tpg.iqn);
  }

  lemma PutVolumeDevs(c: ServerConfig, a: Fs, b: Fs, pool: StatePool, volume: StateVolume)
    requires TidyDevs(a) && VolumePut(c, a, b, pool, volume) && OwnExport(c, a, pool, volume)
    ensures TidyDevs(b)
  {
    hide TpgName, LunName, ImagePath, FileTouched, LunPut, TpgOf;
    assert CanonHba(HbaName(FILEIO, volume.id));
  }

  lemma PutVolumeStaysClear(c: ServerConfig, a: Fs, b: Fs, r: State, pool: StatePool, volume: StateVolume)
    requires WellKeyed(r) && Clear(c, a, r) && VolumePut(c, a, b, pool, volume)
    requires NoPoolClash(r, pool) && NoVolumeClash(r, pool, volume)
    ensures Clear(c, b, r)
  {
    hide ClearTargets, ClearDevs, ClearLinks, VolumePut, NoPoolClash, NoVolumeClash, WellKeyed;
    PutVolumeClearTargets(c, a, b, r, pool, volume);
    PutVolumeClearDevs(c, a, b, r, pool, volume);
  }

  lemma PutVolumeClearTargets(c: ServerConfig, a: Fs, b: Fs, r: State, pool: StatePool, volume: StateVolume)
    requires WellKeyed(r) && ClearTargets(c, a, r) && VolumePut(c, a, b, pool, volume) && NoPoolClash(r, pool)
    ensures ClearTargets(c, b, r)
  {
    hide HbaName, TpgOf, LunName, ImagePath, FileTouched, BackstorePut, Ours, WellKeyed, NoPoolClash, PoolTpg;
    SamePoolTarget(c, r, pool);
  }

  lemma PutVolumeClearDevs(c: ServerConfig, a: Fs, b: Fs, r: State, pool: StatePool, volume: StateVolume)
    requires WellKeyed(r) && ClearDevs(a, r) && ClearLinks(c, a, r) && VolumePut(c, a, b, pool, volume)
    requires NoVolumeClash(r, pool, volume)
    ensures ClearDevs(b, r) && ClearLinks(c, b, r)
  {
    hide HbaName, TpgOf, LunName, ImagePath, FileTouched, TargetPut, VolKeys, VolDev, VolLun, NoVolumeClash;
    forall k | k in VolKeys(r) && VolDev(r, k).hba == DeviceOf(volume).hba
      ensures VolDev(r, k) == DeviceOf(volume) && VolLun(c, r, k) == LunOf(TargetOf(c, pool), volume.id)
    {
      SameIdSameVolume(c, r, k, pool, volume);
    }
  }

  lemma SameIdSameVolume(c: ServerConfig, r: State, k: VolKey, pool: StatePool, volume: StateVolume)
    requires WellKeyed(r) && k in VolKeys(r) && VolDev(r, k).hba == DeviceOf(volume).hba
    requires NoVolumeClash(r, pool, volume)
    ensures k.vol == volume.id
    ensures VolDev(r, k) == DeviceOf(volume) && VolLun(c, r, k) == LunOf(TargetOf(c, pool), volume.id)
  {
    hide TpgOf, HbaName;
    assert ParseHba(VolDev(r, k).hba) == Hba(FILEIO, k.vol) && ParseHba(DeviceOf(volume).hba) == Hba(FILEIO, volume.id);
  }

  /** What the registry with one volume more has at each key. */
  lemma OneVolumeMore(c: ServerConfig, s: State, p: u16, volume: StateVolume)
    requires WellKeyed(s) && p in s.pools && forall k | k in VolKeys(s) :: k.vol != volume.id
    ensures var t, n := PutVolume(s, p, volume), VolKey(p, volume.id);
      && VolKeys(t) == VolKeys(s) + {n}
      && VolDev(t, n) == DeviceOf(volume) && VolLun(c, t, n) == LunOf(TargetOf(c, s.pools[p]), volume.id)
      && (forall k | k in VolKeys(s) ::
            k in VolKeys(t) && VolDev(t, k) == VolDev(s, k) && VolLun(c, t, k) == VolLun(c, s, k))
      && (forall k | k in VolKeys(s) :: VolDev(s, k).hba != DeviceOf(volume).hba)
  {
    hide VolKeys, VolLun, TpgOf, HbaName, LunName, WellKeyed;
    var t := PutVolume(s, p, volume);
    NewInPool(s, p, volume.id);
    NewKeysOfVolume(s, p, volume);
    NewVolumePaths(c, s, p, volume);
    forall k | k in VolKeys(s)
      ensures VolDev(t, k) == VolDev(s, k) && VolLun(c, t, k) == VolLun(c, s, k) &&
              VolDev(s, k).hba != DeviceOf(volume).hba
    {
      SameVolume(c, s, t, k);
      VolumeIds(s, k);
      assert ParseHba(VolDev(s, k).hba) == Hba(FILEIO, k.vol) &&
          ParseHba(DeviceOf(volume).hba) == Hba(FILEIO, volume.id);
    }
  }

  lemma NewVolumeIsClear(c: ServerConfig, a: Fs, b: Fs, s: State, p: u16, volume: StateVolume)
    requires WellKeyed(s) && p in s.pools && Clear(c, b, s)
    requires VolumePut(c, a, b, s.pools[p], volume) && OwnExport(c, a, s.pools[p], volume)
    requires forall k | k in VolKeys(s) :: k.vol != volume.id
    ensures Clear(c, b, PutVolume(s, p, volume))
  {
    hide WellKeyed, Ours, VolKeys, VolDev, VolLun, VolumePut, OwnExport, ClearTargets, ClearDevs, ClearLinks,
      PutVolume, DeviceOf, LunOf, TargetOf;
    OneVolumeMore(c, s, p, volume);
    NewVolumeTargets(c, b, s, p, volume);
    OnlyNewDevice(c, a, b, s.pools[p], volume);
    NewVolumeDevs(c, b, s, PutVolume(s, p, volume), VolKey(p, volume.id));
    NewVolumeLinks(c, b, s, PutVolume(s, p, volume), VolKey(p, volume.id));
  }

  lemma NewVolumeTargets(c: ServerConfig, fs: Fs, s: State, p: u16, volume: StateVolume)
    requires p in s.pools && ClearTargets(c, fs, s)
    ensures ClearTargets(c, fs, PutVolume(s, p, volume))
  {
    hide Ours, TpgName;
    forall q | q in s.pools ensures PoolTpg(c, PutVolume(s, p, volume), q) == PoolTpg(c, s, q) {
    }
  }

  lemma OnlyNewDevice(c: ServerConfig, a: Fs, b: Fs, pool: StatePool, volume: StateVolume)
    requires VolumePut(c, a, b, pool, volume) && OwnExport(c, a, pool, volume)
    ensures forall d | d in b.devs && d.hba == DeviceOf(volume).hba :: d == DeviceOf(volume)
    ensures forall x | x in b.links && b.links[x].hba == DeviceOf(volume).hba ::
            x.lun == LunOf(TargetOf(c, pool), volume.id)
  {
    hide HbaName, TpgOf, LunName, ImagePath, FileTouched, TargetPut;
  }

  lemma NewVolumeDevs(c: ServerConfig, fs: Fs, s: State, t: State, n: VolKey)
    requires ClearDevs(fs, s) && n in VolKeys(t) && VolKeys(t) == VolKeys(s) + {n}
    requires forall k | k in VolKeys(s) :: k in VolKeys(t) && VolDev(t, k) == VolDev(s, k)
    requires forall d | d in fs.devs && d.hba == VolDev(t, n).hba :: d == VolDev(t, n)
    ensures ClearDevs(fs, t)
  {
    hide VolKeys, VolDev;
  }

  lemma NewVolumeLinks(c: ServerConfig, fs: Fs, s: State, t: State, n: VolKey)
    requires ClearLinks(c, fs, s) && n in VolKeys(t) && VolKeys(t) == VolKeys(s) + {n}
    requires forall k | k in VolKeys(s) ::
               k in VolKeys(t) && VolDev(t, k) == VolDev(s, k) && VolLun(c, t, k) == VolLun(c, s, k)
    requires forall x | x in fs.links && fs.links[x].hba == VolDev(t, n).hba :: x.lun == VolLun(c, t, n)
    ensures ClearLinks(c, fs, t)
  {
    hide VolKeys, VolDev, VolLun;
  }

  lemma NewInPool(s: State, p: u16, id: u16)
    requires p in s.pools && forall k | k in VolKeys(s) :: k.vol != id
    ensures id !in s.pools[p].volumes
  {
    assert id in s.pools[p].volumes ==> VolKey(p, id) in VolKeys(s);
  }

  lemma NewVolumePaths(c: ServerConfig, s: State, p: u16, volume: StateVolume)
    requires p in s.pools && volume.id !in s.pools[p].volumes
    ensures var t, n := PutVolume(s, p, volume), VolKey(p, volume.id);
      && n in VolKeys(t)
      && VolLun(c, t, n) == LunOf(TargetOf(c, s.pools[p]), volume.id)
      && VolDev(t, n) == DeviceOf(volume)
  {
    hide TpgOf, HbaName, LunName;
    NewKeysOfVolume(s, p, volume);
  }

  /** The call works with an id, disk file and kernel paths nobody else uses. */
  ghost predicate FreshVolumeCall(c: ServerConfig, w: World, inn: CreateVolumeRequest, id: u16) {
    var p := ToU16(inn.poolId);
    p in w.st.pools ==>
      && FreshVolume(c, w.st, p, NewVolume(inn, id))
      && OwnExport(c, w.fs, w.st.pools[p], NewVolume(inn, id))
  }

  /** The registry asks for the same whatever its high-water mark. */
  lemma SamePoolsStayHealthy(c: ServerConfig, fs: Fs, s: State, t: State)
    requires WellFormed(c, s) && Clear(c, fs, s) && t.pools == s.pools
    ensures WellFormed(c, t) && Clear(c, fs, t)
  {
    hide WellFormed, Clear;
    assert SubState(t, s);
    SubStateIsWellFormed(c, t, s);
    SubStateStaysClear(c, fs, t, s);
  }

  /** Stopped anywhere or not, creating a volume leaves a healthy server; one that registers
      nothing and adds nothing to the tree needs nothing, another one an id and a disk file that
      nobody else has. */
  lemma CreateVolumeStaysHealthy(
      c: ServerConfig, w: World, inn: CreateVolumeRequest, id: u16, w': World, res: VolumeInfo, code: Code)
    requires Healthy(c, w) && CreateVolumeOutcome(c, w, inn, id, w', res, code)
    requires code in {OK, Internal} || !Shrunk(w.fs, w'.fs) ==> FreshVolumeCall(c, w, inn, id)
    ensures Healthy(c, w')
  {
    hide Tidy, Clear, WellFormed, Fs.Wf, VolumePut, MadeInOrder, VolumeMade, OwnExport, NewVolume, VolumeConflict,
      PutVolume, FreshVolume, NoPoolClash, Shrunk;
    var s, p, volume := w.st, ToU16(inn.poolId), NewVolume(inn, id);
    SameIsShrunk(w.fs, w'.fs);
    if code !in {OK, Internal} && Shrunk(w.fs, w'.fs) {
      ShrunkStaysHealthy(c, w, w');
    } else {
      VolumeIdIs(inn, id);
      WellFormedParts(c, s);
      NoPoolClashWithSelf(s, p);
      FreshIsNoClash(c, s, p, volume);
      PutVolumeStaysTidy(c, w.fs, w'.fs, s.pools[p], volume);
      PutVolumeStaysClear(c, w.fs, w'.fs, s, s.pools[p], volume);
      SamePoolsStayHealthy(c, w'.fs, s, Bump(s, id));
      if code in {OK, Internal} {
        FreshBump(c, s, p, volume, id);
        PutVolumeWellFormed(c, Bump(s, id), p, volume);
        WellFormedParts(c, Bump(s, id));
        FreshIsNoClash(c, Bump(s, id), p, volume);
        NewVolumeIsClear(c, w.fs, w'.fs, Bump(s, id), p, volume);
      }
    }
  }

  lemma NoPoolClashWithSelf(s: State, p: u16)
    requires WellKeyed(s) && p in s.pools
    ensures NoPoolClash(s, s.pools[p])
  {
  }

  lemma TidyParts(base: string, fs: Fs)
    requires Tidy(base, fs)
    ensures fs.Wf()
  {
  }

  lemma FreshIsNoClash(c: ServerConfig, s: State, p: u16, volume: StateVolume)
    requires p in s.pools && FreshVolume(c, s, p, volume)
    ensures NoVolumeClash(s, s.pools[p], volume)
    ensures forall k | k in VolKeys(s) :: k.vol != volume.id
  {
    hide VolKeys;
  }

  lemma FreshBump(c: ServerConfig, s: State, p: u16, volume: StateVolume, id: u16)
    requires p in s.pools && FreshVolume(c, s, p, volume)
    ensures FreshVolume(c, Bump(s, id), p, volume)
  {
    hide ImagePath;
    assert VolKeys(Bump(s, id)) == VolKeys(s);
    assert forall k | k in VolKeys(s) :: VolFile(c, Bump(s, id), k) == VolFile(c, s, k);
  }

  lemma VolumeIdIs(inn: CreateVolumeRequest, id: u16)
    ensures NewVolume(inn, id).id == id
  {
  }

  // Reconciling.

  /** What the two registries have under the same id is the same. */
  ghost predicate Agree(r: State, s: State) {
    && (forall p | p in r.pools && p in s.pools :: r.pools[p].name == s.pools[p].name)
    && (forall j, k | j in VolKeys(r) && k in VolKeys(s) && j.vol == k.vol ::
          j == k && VolOf(r, j).name == VolOf(s, k).name)
  }

  lemma AgreeWithSelf(c: ServerConfig, s: State)
    requires WellFormed(c, s)
    ensures Agree(s, s)
  {
  }

  lemma AgreedPool(c: ServerConfig, r: State, s: State, p: u16, q: u16)
    requires WellKeyed(r) && WellKeyed(s) && Agree(r, s) && p in r.pools && q in s.pools
    requires PoolTpg(c, r, p).tpg == PoolTpg(c, s, q).tpg
    ensures PoolTpg(c, r, p) == PoolTpg(c, s, q)
  {
    hide VolKeys;
    assert ParseTpg(PoolTpg(c, r, p).tpg) == Num(p) && ParseTpg(PoolTpg(c, s, q).tpg) == Num(q);
  }

  lemma AgreedVolume(c: ServerConfig, r: State, s: State, j: VolKey, k: VolKey)
    requires WellKeyed(r) && WellKeyed(s) && Agree(r, s) && j in VolKeys(r) && k in VolKeys(s)
    requires VolDev(r, j).hba == VolDev(s, k).hba
    ensures VolDev(r, j) == VolDev(s, k) && VolLun(c, r, j) == VolLun(c, s, k)
  {
    hide TpgName, HbaName;
    assert ParseHba(VolDev(r, j).hba) == Hba(FILEIO, j.vol) && ParseHba(VolDev(s, k).hba) == Hba(FILEIO, k.vol);
  }

  /** Reconciling to one registry leaves the kernel clear for another one that agrees with it. */
  lemma TowardStaysClear(c: ServerConfig, a: Fs, b: Fs, s: State, r: State)
    requires WellFormed(c, s) && WellKeyed(r) && Agree(r, s) && Toward(a, b, GoalOf(c, s)) && Clear(c, a, r)
    ensures Clear(c, b, r)
  {
    hide WellFormed, GoalOf, Clear, Agree;
    WellFormedParts(c, s);
    GoalParts(c, s);
    ClearFromParts(c, a, r);
    TowardStaysClearTargets(c, a, b, s, r, GoalOf(c, s));
    TowardStaysClearDevs(c, a, b, s, r, GoalOf(c, s));
    TowardStaysClearLinks(c, a, b, s, r, GoalOf(c, s));
    ClearFromParts(c, b, r);
  }

  lemma ClearFromParts(c: ServerConfig, fs: Fs, r: State)
    ensures Clear(c, fs, r) <==> ClearTargets(c, fs, r) && ClearDevs(fs, r) && ClearLinks(c, fs, r)
  {
    hide ClearTargets, ClearDevs, ClearLinks;
  }

  lemma TowardStaysClearTargets(c: ServerConfig, a: Fs, b: Fs, s: State, r: State, g: Goal)
    requires WellKeyed(s) && WellKeyed(r) && Agree(r, s) && ClearTargets(c, a, r)
    requires TowardTargets(a, b, g) && g.tpgs == WantTpgs(c, s)
    ensures ClearTargets(c, b, r)
  {
    hide Agree, Ours, PoolTpg, WellKeyed;
    forall p, q | p in b.tpgs && q in r.pools && Ours(c.baseIqn, p.iqn) && p.tpg == PoolTpg(c, r, q).tpg
      ensures p == PoolTpg(c, r, q)
    {
      if p !in a.tpgs {
        var n :| n in s.pools && p == PoolTpg(c, s, n);
        AgreedPool(c, r, s, q, n);
      }
    }
  }

  lemma TowardStaysClearDevs(c: ServerConfig, a: Fs, b: Fs, s: State, r: State, g: Goal)
    requires WellKeyed(s) && IdsApart(s) && WellKeyed(r) && Agree(r, s) && ClearDevs(a, r)
    requires TowardDevs(a, b, g) && g.devs == WantDevs(c, s)
    ensures ClearDevs(b, r)
  {
    hide Agree, VolKeys, VolDev, WellKeyed, IdsApart, DevGood, CanonHba;
    forall d, k | d in b.devs && k in VolKeys(r) && d.hba == VolDev(r, k).hba ensures d == VolDev(r, k) {
      if d !in a.devs {
        var j :| j in VolKeys(s) && d == VolDev(s, j);
        AgreedVolume(c, r, s, k, j);
      }
    }
  }

  lemma TowardStaysClearLinks(c: ServerConfig, a: Fs, b: Fs, s: State, r: State, g: Goal)
    requires WellKeyed(s) && WellKeyed(r) && Agree(r, s) && ClearLinks(c, a, r)
    requires TowardLuns(a, b, g) && g.luns == WantLuns(c, s)
    ensures ClearLinks(c, b, r)
  {
    hide Agree, VolKeys, VolDev, VolLun, WellKeyed, Ours;
    forall x, k | x in b.links && k in VolKeys(r) && b.links[x].hba == VolDev(r, k).hba
      ensures x.lun == VolLun(c, r, k)
    {
      if x !in a.links {
        var j :| j in VolKeys(s) && x.lun == VolLun(c, s, j);
        AgreedVolume(c, r, s, k, j);
      }
    }
  }

  lemma TowardStaysTidyLinks(c: ServerConfig, a: Fs, b: Fs, s: State, g: Goal)
    requires WellKeyed(s) && TidyLinks(a) && TowardLuns(a, b, g) && g.luns == WantLuns(c, s)
    ensures TidyLinks(b)
  {
    hide VolKeys, VolDev, VolLun, WellKeyed, Ours, ParseLun, CanonLun, HbaName;
    forall x | x in b.links ensures LinkTidy(x, b.links[x]) {
      if x !in a.links {
        var j :| j in VolKeys(s) && x.lun == VolLun(c, s, j);
        LunToHba(c, s, j);
      }
    }
  }

  /** Every prefix of a reconcile leaves a healthy server, also for another registry that agrees. */
  lemma ReconcileStaysHealthy(c: ServerConfig, a: Fs, b: Fs, s: State)
    requires WellFormed(c, s) && Tidy(c.baseIqn, a) && Clear(c, a, s)
    requires Toward(a, b, GoalOf(c, s)) && Managed(b, GoalOf(c, s))
    ensures Tidy(c.baseIqn, b) && Clear(c, b, s)
  {
    hide WellFormed, GoalOf, Clear, Agree, TidyTargets, TidyLinks, TidyDevs, ManagedTargets, ManagedDevs,
      TowardTargets, TowardDevs,
      TowardLuns, Fs.Wf, Goal.Wf;
    AgreeWithSelf(c, s);
    WellFormedParts(c, s);
    GoalParts(c, s);
    GoalBase(c, s);
    GoalIsWf(c, s);
    TowardStaysClear(c, a, b, s, s);
    ManagedTargetsTidy(c, b, s);
    ManagedDevsTidy(c, b, s);
    TowardStaysTidyLinks(c, a, b, s, GoalOf(c, s));
  }

  lemma GoalBase(c: ServerConfig, s: State)
    requires WellFormed(c, s)
    ensures GoalOf(c, s).base == c.baseIqn
  {
  }

  lemma GoalParts(c: ServerConfig, s: State)
    requires WellFormed(c, s)
    ensures GoalOf(c, s).tpgs == WantTpgs(c, s)
    ensures GoalOf(c, s).luns == WantLuns(c, s)
    ensures GoalOf(c, s).devs == WantDevs(c, s)
  {
  }

  lemma UnwantedLun(c: ServerConfig, s: State, p: u16, id: u16)
    requires WellFormed(c, s) && p in s.pools && forall k | k in VolKeys(s) :: k.vol != id
    ensures LunOf(TargetOf(c, s.pools[p]), id) !in WantLuns(c, s)
  {
    hide NamesApart, FilesApart, VolumesNamed, IdsApart, VolKeys, TpgOf, TargetOf, HbaName;
    var l := LunOf(TargetOf(c, s.pools[p]), id);
    if l in WantLuns(c, s) {
      var k :| k in VolKeys(s) && l == VolLun(c, s, k);
      VolumeIds(s, k);
      assert false;
    }
  }

  lemma UnwantedDev(c: ServerConfig, s: State, id: u16)
    requires WellFormed(c, s) && forall k | k in VolKeys(s) :: k.vol != id
    ensures forall d | d in WantDevs(c, s) :: d.hba != HbaName(FILEIO, id)
  {
    hide NamesApart, FilesApart, VolumesNamed, VolKeys, HbaName;
    forall d | d in WantDevs(c, s) ensures d.hba != HbaName(FILEIO, id) {
      var k :| k in VolKeys(s) && d == VolDev(s, k);
      VolumeIds(s, k);
      assert ParseHba(d.hba) == Hba(FILEIO, k.vol) && ParseHba(HbaName(FILEIO, id)) == Hba(FILEIO, id);
    }
  }

  lemma UnwantedId(c: ServerConfig, s: State, p: u16, id: u16)
    requires WellFormed(c, s) && p in s.pools && forall k | k in VolKeys(s) :: k.vol != id
    ensures LunOf(TargetOf(c, s.pools[p]), id) !in GoalOf(c, s).luns
    ensures forall d | d in GoalOf(c, s).devs :: d.hba != HbaName(FILEIO, id)
  {
    hide WellFormed, VolKeys, LunOf, HbaName, WantLuns, WantDevs, WantFloors, WantTpgs;
    UnwantedLun(c, s, p, id);
    UnwantedDev(c, s, id);
  }

  lemma VolumeIds(s: State, k: VolKey)
    requires WellKeyed(s) && k in VolKeys(s)
    ensures VolOf(s, k).id == k.vol
  {
  }

  /** Registries with the same pools ask for the same, whatever their high-water marks. */
  lemma SamePoolsSameGoal(c: ServerConfig, s: State, t: State)
    requires WellFormed(c, s) && t.pools == s.pools
    ensures WellFormed(c, t) && GoalOf(c, t) == GoalOf(c, s)
  {
    hide VolDev, VolLun, VolFile, VolFloor, PoolTpg;
    assert SubState(t, s) && SubState(s, t);
    SubStateIsWellFormed(c, t, s);
    assert VolKeys(t) == VolKeys(s);
    forall k | k in VolKeys(s)
      ensures VolDev(t, k) == VolDev(s, k) && VolLun(c, t, k) == VolLun(c, s, k) && VolFile(c, t, k) == VolFile(c, s, k)
    {
      SameVolume(c, t, s, k);
    }
    SameWants(c, s, t);
  }

  lemma SameWants(c: ServerConfig, s: State, t: State)
    requires WellFormed(c, s) && WellFormed(c, t) && t.pools == s.pools && VolKeys(t) == VolKeys(s)
    requires forall k | k in VolKeys(s) ::
               VolDev(t, k) == VolDev(s, k) && VolLun(c, t, k) == VolLun(c, s, k) &&
                   VolFile(c, t, k) == VolFile(c, s, k)
    ensures GoalOf(c, t) == GoalOf(c, s)
  {
    hide VolDev, VolLun, VolFile, VolKeys, WellKeyed, NamesApart, IdsApart, FilesApart, VolumesNamed;
    SameWantTpgs(c, s, t);
    SameWantLuns(c, s, t);
    SameWantDevs(c, s, t);
    SameWantFloors(c, s, t);
  }

  lemma SameWantTpgs(c: ServerConfig, s: State, t: State)
    requires t.pools == s.pools
    ensures WantTpgs(c, t) == WantTpgs(c, s)
  {
    forall p | p in s.pools ensures PoolTpg(c, t, p) == PoolTpg(c, s, p) {
    }
  }

  lemma SameWantLuns(c: ServerConfig, s: State, t: State)
    requires WellKeyed(s) && WellKeyed(t) && VolKeys(t) == VolKeys(s)
    requires forall k | k in VolKeys(s) :: VolDev(t, k) == VolDev(s, k) && VolLun(c, t, k) == VolLun(c, s, k)
    ensures WantLuns(c, t) == WantLuns(c, s)
  {
    hide VolKeys, VolLun, VolDev, WellKeyed;
  }

  lemma SameWantDevs(c: ServerConfig, s: State, t: State)
    requires WellKeyed(s) && WellKeyed(t) && IdsApart(s) && IdsApart(t) && VolKeys(t) == VolKeys(s)
    requires forall k | k in VolKeys(s) :: VolDev(t, k) == VolDev(s, k) && VolFile(c, t, k) == VolFile(c, s, k)
    ensures WantDevs(c, t) == WantDevs(c, s)
  {
    hide VolKeys, VolFile, VolDev, WellKeyed, IdsApart;
  }

  lemma SameWantFloors(c: ServerConfig, s: State, t: State)
    requires FilesApart(c, s) && FilesApart(c, t) && VolKeys(t) == VolKeys(s) && t.pools == s.pools
    requires forall k | k in VolKeys(s) :: VolFile(c, t, k) == VolFile(c, s, k)
    ensures WantFloors(c, t) == WantFloors(c, s)
  {
    hide VolKeys, VolFile, FilesApart;
  }

  // Legal removals.

  /** On a healthy server a listed target is alone in its directory with legible LUNs, wanted or
      not, so nothing in its removal is refused. */
  lemma ListedTargetLegal(c: ServerConfig, w: World, t: Target)
    requires Healthy(c, w) && TargetListed(w.fs, c.baseIqn, t)
    ensures t.iqn != "" && LegibleLuns(w.fs, TpgOf(t)) && AloneInIqn(w.fs, TpgOf(t))
  {
    hide WellFormed, Clear, TidyLinks, TidyDevs, ParseTpg, TpgName;
    var p :| Listed(w.fs, c.baseIqn, p) && t == TargetAt(c.baseIqn, p);
    assert CanonTpg(p.tpg);
    assert TpgOf(t) == p;
  }

  /** On a healthy server only a registered volume's own LUN links to its backstore. */
  lemma OnlyItsLunLinks(c: ServerConfig, w: World, k: VolKey)
    requires Healthy(c, w) && k in VolKeys(w.st)
    ensures OnlyLinksFrom(w.fs, HbaName(FILEIO, k.vol), VolLun(c, w.st, k))
  {
    hide Tidy, VolKeys, VolLun, HbaName, VolDev, ClearTargets, ClearDevs;
    WellFormedParts(c, w.st);
    LunToHba(c, w.st, k);
  }

  /** Nothing links to a backstore of another type. */
  lemma NothingLinksElsewhere(base: string, fs: Fs, d: DevPath, kind: string, id: u16, l: LunPath)
    requires Tidy(base, fs) && d in fs.devs && ParseHba(d.hba) == Hba(kind, id) && kind != FILEIO
    ensures HbaName(kind, id) == d.hba && OnlyLinksFrom(fs, HbaName(kind, id), l)
  {
    hide TidyTargets, TidyLuns, HbaName, ParseLun, CanonLun;
    assert CanonHba(d.hba);
    forall x | x in fs.links ensures fs.links[x].hba != d.hba {
      assert LinkTidy(x, fs.links[x]);
      assert ParseHba(fs.links[x].hba).kind == FILEIO;
    }
  }

  // After a complete reconcile there is room for what the registry does not have.

  lemma ConvergedSees(fs: Fs, g: Goal)
    requires Converged(fs, g)
    ensures forall p | p in fs.tpgs && Ours(g.base, p.iqn) :: p in g.tpgs
    ensures forall p | p in g.tpgs :: p in fs.tpgs
    ensures forall l | l in fs.luns && Ours(g.base, l.tpg.iqn) :: l in g.luns
    ensures forall d | d in fs.devs && Listable(d) :: d in g.devs
    ensures forall d | d in g.devs :: d in fs.devs
  {
    hide ParseHba, Ours;
    var v, w := ViewOf(fs, g.base), Desired(g, fs);
    forall p ensures (p in fs.tpgs && Ours(g.base, p.iqn)) <==> p in g.tpgs { assert p in v.tpgs <==> p in w.tpgs; }
    assert v.luns == w.luns;
    forall d ensures (d in fs.devs && Listable(d)) <==> d in g.devs { assert d in v.devs <==> d in w.devs; }
  }

  lemma ConvergedLeavesRoomForPool(c: ServerConfig, w: World, inn: CreatePoolRequest, id: u16)
    requires WellFormed(c, w.st) && Converged(w.fs, GoalOf(c, w.st))
    requires id != 0 && id !in w.st.pools && forall p | p in w.st.pools :: w.st.pools[p].name != NewPool(inn, id).name
    ensures FreshPool(c, w, inn, id)
  {
    hide Converged, IdsApart, FilesApart, VolumesNamed, NamesApart, NewPool, WantLuns, WantDevs, WantFloors;
    var g := GoalOf(c, w.st);
    ConvergedSees(w.fs, g);
    forall p | p in w.fs.tpgs && Ours(c.baseIqn, p.iqn)
      ensures p.tpg != TpgName(id) && PoolNameOf(c.baseIqn, p.iqn) != NewPool(inn, id).name
    {
      assert p in WantTpgs(c, w.st);
      var q :| q in w.st.pools && p == PoolTpg(c, w.st, q);
      assert ParseTpg(p.tpg) == Num(q) && ParseTpg(TpgName(id)) == Num(id);
    }
    NewPoolIs(inn, id);
    assert PoolNameOf(c.baseIqn, Iqn(c.baseIqn, NewPool(inn, id).name)) == NewPool(inn, id).name;
  }

  lemma ConvergedLeavesRoomForVolume(c: ServerConfig, fs: Fs, s: State, p: u16, volume: StateVolume)
    requires WellFormed(c, s) && Converged(fs, GoalOf(c, s))
    requires p in s.pools && forall k | k in VolKeys(s) :: k.vol != volume.id
    ensures FreeExport(c, fs, s.pools[p], volume)
  {
    hide Converged, WellFormed, VolKeys, WantLuns, WantDevs, WantFloors, TpgOf, HbaName, Ours;
    var g := GoalOf(c, s);
    ConvergedSees(fs, g);
    UnwantedId(c, s, p, volume.id);
    assert PoolTpg(c, s, p) in WantTpgs(c, s);
    PoolTpgIsOurs(c, s, p);
  }

  lemma PoolTpgIsOurs(c: ServerConfig, s: State, p: u16)
    requires p in s.pools
    ensures Ours(c.baseIqn, TpgOf(TargetOf(c, s.pools[p])).iqn)
  {
  }
}
