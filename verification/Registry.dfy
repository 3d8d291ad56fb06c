/** The registry the server persists, and the kernel tree it asks for. */
module Registry {
  import opened Types
  import opened Names
  import opened KernelTree
  import opened Frames
  import opened Convergence

  const GIB: int := 1024 * 1024 * 1024

  datatype VolKey = VolKey(pool: u16, vol: u16)

  function VolKeys(s: State): set<VolKey> {
    set p, v | p in s.pools && v in s.pools[p].volumes :: VolKey(p, v)
  }

  function VolOf(s: State, k: VolKey): StateVolume
    requires k in VolKeys(s)
  {
    s.pools[k.pool].volumes[k.vol]
  }

  /** Every pool and volume is stored under its own id, and no id is 0. */
  predicate WellKeyed(s: State) {
    && (forall p | p in s.pools :: s.pools[p].id == p && p != 0)
    && (forall p, v | p in s.pools && v in s.pools[p].volumes :: s.pools[p].volumes[v].id == v && v != 0)
  }

  function TargetOf(c: ServerConfig, pool: StatePool): Target {
    Target(pool.id, pool.name, Iqn(c.baseIqn, pool.name))
  }

  function PoolTpg(c: ServerConfig, s: State, p: u16): TpgPath
    requires p in s.pools
  {
    TpgOf(TargetOf(c, s.pools[p]))
  }

  function VolLun(c: ServerConfig, s: State, k: VolKey): LunPath
    requires k in VolKeys(s)
  {
    LunOf(TargetOf(c, s.pools[k.pool]), VolOf(s, k).id)
  }

  function VolDev(s: State, k: VolKey): DevPath
    requires k in VolKeys(s)
  {
    DevPath(HbaName(FILEIO, VolOf(s, k).id), VolOf(s, k).name)
  }

  function VolFile(c: ServerConfig, s: State, k: VolKey): string
    requires k in VolKeys(s)
  {
    ImagePath(c.volumesDir, s.pools[k.pool].name, VolOf(s, k).name)
  }

  /** Where a volume is on the machine, written out. */
  lemma VolumeLayout(c: ServerConfig, s: State, k: VolKey)
    requires WellKeyed(s) && k in VolKeys(s)
    ensures var pool, volume := s.pools[k.pool].name, VolOf(s, k).name;
      && VolLun(c, s, k) ==
           LunPath(TpgPath(c.baseIqn + ":" + pool, "tpgt_" + Dec(k.pool)), "lun_" + Dec(k.vol))
      && VolDev(s, k) == DevPath("fileio_" + Dec(k.vol), volume)
      && VolFile(c, s, k) == c.volumesDir + "/" + pool + "-" + volume + ".img"
  {
    hide Dec;
  }

  /** The size a reconcile gives a volume's disk file at least. */
  function VolFloor(s: State, k: VolKey): int
    requires k in VolKeys(s)
  {
    Max(GIB, VolOf(s, k).size)
  }

  // What the server means its registry to be but checks only in part.

  predicate NamesApart(s: State) {
    forall p, q | p in s.pools && q in s.pools && s.pools[p].name == s.pools[q].name :: p == q
  }

  predicate IdsApart(s: State) {
    forall j, k | j in VolKeys(s) && k in VolKeys(s) && j.vol == k.vol :: j == k
  }

  predicate FilesApart(c: ServerConfig, s: State) {
    forall j, k | j in VolKeys(s) && k in VolKeys(s) && VolFile(c, s, j) == VolFile(c, s, k) :: j == k
  }

  predicate VolumesNamed(s: State) {
    forall k | k in VolKeys(s) :: VolOf(s, k).name != ""
  }

  /** Pool names, volume ids and disk files are not shared, and volume names are not empty. */
  predicate WellFormed(c: ServerConfig, s: State) {
    WellKeyed(s) && NamesApart(s) && IdsApart(s) && FilesApart(c, s) && VolumesNamed(s)
  }

  // The kernel tree a registry asks for.

  function WantTpgs(c: ServerConfig, s: State): (tpgs: set<TpgPath>)
    ensures forall p | p in s.pools :: PoolTpg(c, s, p) in tpgs
    ensures forall t | t in tpgs :: exists p :: p in s.pools && t == PoolTpg(c, s, p)
  {
    set p | p in s.pools :: PoolTpg(c, s, p)
  }

  lemma LunApart(c: ServerConfig, s: State, j: VolKey, k: VolKey)
    requires WellKeyed(s) && j in VolKeys(s) && k in VolKeys(s)
    requires VolLun(c, s, j) == VolLun(c, s, k)
    ensures j == k
  {
    assert ParseTpg(VolLun(c, s, j).tpg.tpg) == Num(j.pool) && ParseTpg(VolLun(c, s, k).tpg.tpg) == Num(k.pool);
    assert ParseLun(VolLun(c, s, j).lun) == Num(j.vol) && ParseLun(VolLun(c, s, k).lun) == Num(k.vol);
  }

  /** The volume a wanted LUN belongs to; likewise for backstores and disk files below. */
  ghost function LunKey(c: ServerConfig, s: State, l: LunPath): (k: VolKey)
    requires exists k :: k in VolKeys(s) && l == VolLun(c, s, k)
    ensures k in VolKeys(s) && l == VolLun(c, s, k)
  {
    var k :| k in VolKeys(s) && l == VolLun(c, s, k);
    k
  }

  lemma LunKeys(c: ServerConfig, s: State)
    requires WellKeyed(s)
    ensures forall k | k in VolKeys(s) :: LunKey(c, s, VolLun(c, s, k)) == k
  {
    forall k | k in VolKeys(s) ensures LunKey(c, s, VolLun(c, s, k)) == k {
      LunApart(c, s, LunKey(c, s, VolLun(c, s, k)), k);
    }
  }

  ghost function LunPaths(c: ServerConfig, s: State): (paths: set<LunPath>)
    ensures forall k | k in VolKeys(s) :: VolLun(c, s, k) in paths
    ensures forall l | l in paths :: exists k :: k in VolKeys(s) && l == VolLun(c, s, k)
  {
    set k | k in VolKeys(s) :: VolLun(c, s, k)
  }

  ghost function WantLuns(c: ServerConfig, s: State): (luns: map<LunPath, DevPath>)
    requires WellKeyed(s)
    ensures forall k | k in VolKeys(s) :: VolLun(c, s, k) in luns && luns[VolLun(c, s, k)] == VolDev(s, k)
    ensures forall l | l in luns :: exists k :: k in VolKeys(s) && l == VolLun(c, s, k)
  {
    LunKeys(c, s);
    map l | l in LunPaths(c, s) :: VolDev(s, LunKey(c, s, l))
  }

  lemma DevApart(s: State, j: VolKey, k: VolKey)
    requires WellKeyed(s) && IdsApart(s) && j in VolKeys(s) && k in VolKeys(s)
    requires VolDev(s, j).hba == VolDev(s, k).hba
    ensures j == k
  {
    assert ParseHba(VolDev(s, j).hba) == Hba(FILEIO, j.vol) && ParseHba(VolDev(s, k).hba) == Hba(FILEIO, k.vol);
  }

  ghost function DevKey(s: State, d: DevPath): (k: VolKey)
    requires exists k :: k in VolKeys(s) && d == VolDev(s, k)
    ensures k in VolKeys(s) && d == VolDev(s, k)
  {
    var k :| k in VolKeys(s) && d == VolDev(s, k);
    k
  }

  ghost function WantDevs(c: ServerConfig, s: State): (devs: map<DevPath, string>)
    requires WellKeyed(s) && IdsApart(s)
    ensures forall k | k in VolKeys(s) :: VolDev(s, k) in devs && devs[VolDev(s, k)] == VolFile(c, s, k)
    ensures forall d | d in devs :: exists k :: k in VolKeys(s) && d == VolDev(s, k)
  {
    var paths := set k | k in VolKeys(s) :: VolDev(s, k);
    assert forall d | d in paths :: exists k :: k in VolKeys(s) && d == VolDev(s, k);
    assert forall k | k in VolKeys(s) :: DevKey(s, VolDev(s, k)) == k by {
      forall k | k in VolKeys(s) ensures DevKey(s, VolDev(s, k)) == k {
        DevApart(s, DevKey(s, VolDev(s, k)), k);
      }
    }
    map d | d in paths :: VolFile(c, s, DevKey(s, d))
  }

  ghost function FileKey(c: ServerConfig, s: State, f: string): (k: VolKey)
    requires exists k :: k in VolKeys(s) && f == VolFile(c, s, k)
    ensures k in VolKeys(s) && f == VolFile(c, s, k)
  {
    var k :| k in VolKeys(s) && f == VolFile(c, s, k);
    k
  }

  ghost function WantFloors(c: ServerConfig, s: State): (floors: map<string, int>)
    requires FilesApart(c, s)
    ensures forall k | k in VolKeys(s) :: VolFile(c, s, k) in floors && floors[VolFile(c, s, k)] == VolFloor(s, k)
    ensures forall f | f in floors :: exists k :: k in VolKeys(s) && f == VolFile(c, s, k)
  {
    var paths := set k | k in VolKeys(s) :: VolFile(c, s, k);
    assert forall f | f in paths :: exists k :: k in VolKeys(s) && f == VolFile(c, s, k);
    map f | f in paths :: VolFloor(s, FileKey(c, s, f))
  }

  ghost function GoalOf(c: ServerConfig, s: State): Goal
    requires WellFormed(c, s)
  {
    Goal(c.baseIqn, c.portal, WantTpgs(c, s), WantLuns(c, s), WantDevs(c, s), WantFloors(c, s))
  }

  lemma GoalIsWf(c: ServerConfig, s: State)
    requires WellFormed(c, s)
    ensures GoalOf(c, s).Wf()
  {
    WantTpgsWf(c, s);
    WantLunsWf(c, s);
    WantDevsWf(c, s);
    WantFloorsWf(c, s);
  }

  lemma WantTpgsWf(c: ServerConfig, s: State)
    requires WellKeyed(s) && NamesApart(s)
    ensures var tpgs := WantTpgs(c, s);
            && (forall p | p in tpgs :: Ours(c.baseIqn, p.iqn) && CanonTpg(p.tpg))
            && (forall p, q | p in tpgs && q in tpgs && (p.iqn == q.iqn || p.tpg == q.tpg) :: p == q)
  {
    forall a, b | a in s.pools && b in s.pools && PoolTpg(c, s, a).iqn == PoolTpg(c, s, b).iqn ensures a == b {
      assert PoolNameOf(c.baseIqn, PoolTpg(c, s, a).iqn) == s.pools[a].name;
      assert PoolNameOf(c.baseIqn, PoolTpg(c, s, b).iqn) == s.pools[b].name;
    }
    forall a, b | a in s.pools && b in s.pools && PoolTpg(c, s, a).tpg == PoolTpg(c, s, b).tpg ensures a == b {
      assert ParseTpg(PoolTpg(c, s, a).tpg) == Num(a) && ParseTpg(PoolTpg(c, s, b).tpg) == Num(b);
    }
  }

  lemma WantLunsWf(c: ServerConfig, s: State)
    requires WellKeyed(s) && IdsApart(s)
    ensures forall l | l in WantLuns(c, s) ::
              l.tpg in WantTpgs(c, s) && CanonLun(l.lun) && WantLuns(c, s)[l] in WantDevs(c, s)
  {
    forall l | l in WantLuns(c, s)
      ensures l.tpg in WantTpgs(c, s) && CanonLun(l.lun) && WantLuns(c, s)[l] in WantDevs(c, s)
    {
      var k :| k in VolKeys(s) && l == VolLun(c, s, k);
      assert l.tpg == PoolTpg(c, s, k.pool);
    }
  }

  lemma WantDevsWf(c: ServerConfig, s: State)
    requires WellFormed(c, s)
    ensures var devs := WantDevs(c, s);
            && (forall d | d in devs :: CanonHba(d.hba) && ParseHba(d.hba).kind == FILEIO && d.name != "")
            && (forall x, y | x in devs && y in devs && (x.hba == y.hba || devs[x] == devs[y]) :: x == y)
  {
    hide NamesApart, IdsApart, VolKeys, HbaName, ImagePath, WantDevs;
    var devs := WantDevs(c, s);
    forall d | d in devs ensures CanonHba(d.hba) && ParseHba(d.hba).kind == FILEIO && d.name != "" {
      var k :| k in VolKeys(s) && d == VolDev(s, k);
      assert ParseHba(d.hba) == Hba(FILEIO, VolOf(s, k).id);
    }
    forall x, y | x in devs && y in devs && (x.hba == y.hba || devs[x] == devs[y]) ensures x == y {
      var j :| j in VolKeys(s) && x == VolDev(s, j);
      var k :| k in VolKeys(s) && y == VolDev(s, k);
      if x.hba == y.hba { DevApart(s, j, k); }
    }
  }

  lemma WantFloorsWf(c: ServerConfig, s: State)
    requires WellFormed(c, s)
    ensures var devs, floors := WantDevs(c, s), WantFloors(c, s);
            floors.Keys == (set d | d in devs :: devs[d]) && forall f | f in floors :: floors[f] > 0
  {
    hide NamesApart, VolumesNamed, FilesApart, IdsApart, WellKeyed, VolKeys, VolDev, VolFile, WantDevs, WantFloors;
    var devs, floors := WantDevs(c, s), WantFloors(c, s);
    forall f | f in floors ensures f in (set d | d in devs :: devs[d]) && floors[f] > 0 {
      var k :| k in VolKeys(s) && f == VolFile(c, s, k);
      assert VolDev(s, k) in devs;
    }
    forall d | d in devs ensures devs[d] in floors {
      var k :| k in VolKeys(s) && d == VolDev(s, k);
    }
  }
}
