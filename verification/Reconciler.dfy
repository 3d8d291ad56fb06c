/** The reconcile loop, phase by phase: delete targets that should not exist, upsert the pools'
    targets with their portal and drop stale portals and LUNs, export every volume, and
    collect backstores nobody wants. */
module Reconciler {
  import opened Types
  import opened Names
  import opened KernelTree
  import opened Frames
  import opened Convergence
  import opened Registry
  import opened Steps
  import opened Outcomes
  import Lio

  /** `b` is a managed kernel that reconciling has led to from `a`. */
  ghost predicate Progress(a: Fs, b: Fs, g: Goal) {
    g.Wf() && Managed(a, g) && Managed(b, g) && Toward(a, b, g)
  }

  lemma NoProgressYet(a: Fs, g: Goal)
    requires g.Wf() && Managed(a, g)
    ensures Progress(a, a, g)
  {
    TowardRefl(a, g);
  }

  lemma NoProgressFrom(a: Fs, b: Fs, g: Goal)
    requires Progress(a, b, g)
    ensures Progress(b, b, g)
  {
    TowardRefl(b, g);
  }

  lemma Advance(a: Fs, b: Fs, c: Fs, g: Goal)
    requires Progress(a, b, g) && Toward(b, c, g) && c.Wf()
    ensures Progress(a, c, g)
  {
    TowardTrans(a, b, c, g);
    TowardKeepsManaged(b, c, g);
  }

  lemma Chain(a: Fs, b: Fs, c: Fs, g: Goal)
    requires Progress(a, b, g) && Progress(b, c, g)
    ensures Progress(a, c, g)
  {
    TowardTrans(a, b, c, g);
  }

  lemma ProgressFacts(a: Fs, b: Fs, g: Goal)
    requires Progress(a, b, g)
    ensures g.Wf() && g.Closed() && Managed(b, g) && b.Wf() && Toward(a, b, g)
  {
  }

  // One helper call further.

  lemma AfterDeadTarget(start: Fs, a: Fs, b: Fs, g: Goal, p: TpgPath)
    requires Progress(start, a, g) && TargetCut(a, b, p) && b.Wf()
    requires Ours(g.base, p.iqn) && p !in g.tpgs && p.iqn != ""
    ensures Progress(start, b, g)
  {
    DeadTargetStep(a, b, g, p);
    Advance(start, a, b, g);
  }

  lemma AfterLiveTarget(start: Fs, a: Fs, b: Fs, g: Goal, p: TpgPath)
    requires Progress(start, a, g) && NoDeadTargets(a, g) && TargetPut(a, b, p) && p in g.tpgs && b.Wf()
    ensures Progress(start, b, g) && NoDeadTargets(b, g)
  {
    LiveTargetStep(a, b, g, p);
    Advance(start, a, b, g);
  }

  lemma AfterStalePortal(start: Fs, a: Fs, b: Fs, g: Goal, x: PortalPath)
    requires Progress(start, a, g) && x.tpg in g.tpgs && x.portal != g.portal && b.Wf()
    requires b == a || b == a.(portals := a.portals - {x})
    ensures Progress(start, b, g)
  {
    StalePortalStep(a, b, g, x);
    Advance(start, a, b, g);
  }

  lemma AfterPortal(start: Fs, a: Fs, b: Fs, g: Goal, x: PortalPath)
    requires Progress(start, a, g) && PortalPut(a, b, x) && x.tpg in a.tpgs && g.WantsPortal(x) && b.Wf()
    ensures Progress(start, b, g)
    ensures b.tpgs == a.tpgs && (b.portals == a.portals || b.portals == a.portals + {x})
  {
    PortalStep(a, b, g, x);
    Advance(start, a, b, g);
  }

  lemma AfterStaleLun(start: Fs, a: Fs, b: Fs, g: Goal, l: LunPath)
    requires Progress(start, a, g) && LunCut(a, b, l) && l.tpg in g.tpgs && l !in g.luns && b.Wf()
    ensures Progress(start, b, g)
  {
    DeadLunStep(a, b, g, l);
    Advance(start, a, b, g);
  }

  // Phase 1: targets that should not exist.

  /** A listed target is deleted exactly when its portal group is not wanted. */
  lemma DeadByIdIffUnwanted(fs: Fs, c: ServerConfig, s: State, p: TpgPath)
    requires WellFormed(c, s) && Managed(fs, GoalOf(c, s)) && Listed(fs, c.baseIqn, p)
    ensures TpgOf(TargetAt(c.baseIqn, p)) == p
    ensures ParseTpg(p.tpg).id in s.pools <==> p in GoalOf(c, s).tpgs
  {
    var g := GoalOf(c, s);
    var id := ParseTpg(p.tpg).id;
    if id in s.pools {
      assert PoolTpg(c, s, id) in g.tpgs && PoolTpg(c, s, id).tpg == p.tpg;
    }
    if p in g.tpgs {
      var q :| q in s.pools && p == PoolTpg(c, s, q);
    }
  }

  /** Deleting an unwanted target of a managed kernel removes nothing that still has children. */
  lemma DeadTargetLegal(start: Fs, fs: Fs, g: Goal, p: TpgPath)
    requires Progress(start, fs, g) && fs.tpgs.Keys <= start.tpgs.Keys
    requires p in start.tpgs && Ours(g.base, p.iqn) && p !in g.tpgs
    ensures LegibleLuns(fs, p) && AloneInIqn(fs, p) && p.iqn != ""
  {
  }

  // The collection goes by id, whatever the kernel looks like.

  /** The portal group's name is that of a registered id. */
  predicate Live(p: TpgPath, pools: map<u16, StatePool>) {
    ParseTpg(p.tpg).Num? && ParseTpg(p.tpg).id in pools
  }

  ghost predicate KeepsLive(a: Fs, b: Fs, pools: map<u16, StatePool>) {
    forall p | p in a.tpgs && Live(p, pools) :: p in b.tpgs
  }

  /** A listed portal group that has to go shares its target directory with one that stays. */
  ghost predicate DeadBesideLive(fs: Fs, base: string, pools: map<u16, StatePool>) {
    exists p, q | Listed(fs, base, p) && q in fs.tpgs && !Live(p, pools) :: q.iqn == p.iqn && Live(q, pools)
  }

  lemma CutKeepsLive(start: Fs, a: Fs, b: Fs, t: Target, pools: map<u16, StatePool>)
    requires KeepsLive(start, a, pools) && TargetCut(a, b, TpgOf(t)) && t.id !in pools
    ensures KeepsLive(start, b, pools)
  {
    assert ParseTpg(TpgName(t.id)) == Num(t.id);
  }

  lemma AloneAmongLive(start: Fs, a: Fs, t: Target, pools: map<u16, StatePool>)
    requires KeepsLive(start, a, pools) && AloneInIqn(a, TpgOf(t)) && t.id !in pools
    ensures forall q | q in start.tpgs && Live(q, pools) :: q.iqn != t.iqn
  {
    assert ParseTpg(TpgName(t.id)) == Num(t.id);
  }

  // What is not this server's stays, whatever the kernel looks like.

  /** Other servers' targets with all that is in them are as they were. */
  ghost predicate SparesTargets(a: Fs, b: Fs, base: string) {
    && (forall p | p in a.tpgs && !Ours(base, p.iqn) :: p in b.tpgs && b.tpgs[p] == a.tpgs[p])
    && (forall p | p in b.tpgs && !Ours(base, p.iqn) :: p in a.tpgs)
    && (forall x | x in a.portals && !Ours(base, x.tpg.iqn) :: x in b.portals)
    && (forall x | x in b.portals && !Ours(base, x.tpg.iqn) :: x in a.portals)
    && (forall l | l in a.luns && !Ours(base, l.tpg.iqn) :: l in b.luns)
    && (forall l | l in b.luns && !Ours(base, l.tpg.iqn) :: l in a.luns)
    && (forall x | x in a.links && !Ours(base, x.lun.tpg.iqn) :: x in b.links && b.links[x] == a.links[x])
    && (forall x | x in b.links && !Ours(base, x.lun.tpg.iqn) :: x in a.links)
  }

  /** So are all disk files but `files`. */
  ghost predicate Spares(a: Fs, b: Fs, base: string, files: set<string>) {
    && SparesTargets(a, b, base)
    && (forall f | f in a.files && f !in files :: f in b.files && b.files[f] == a.files[f])
    && (forall f | f in b.files && f !in files :: f in a.files)
  }

  lemma SparesRefl(a: Fs, base: string, files: set<string>)
    ensures Spares(a, a, base, files)
  {
  }

  lemma SparesTrans(a: Fs, b: Fs, c: Fs, base: string, more: set<string>, files: set<string>)
    requires Spares(a, b, base, files) && Spares(b, c, base, more) && more <= files
    ensures Spares(a, c, base, files)
  {
    hide Ours;
  }

  lemma TargetCutSpares(a: Fs, b: Fs, base: string, p: TpgPath)
    requires TargetCut(a, b, p) && Ours(base, p.iqn)
    ensures Spares(a, b, base, {})
  {
    hide Ours;
  }

  lemma TargetPutSpares(a: Fs, b: Fs, base: string, p: TpgPath)
    requires TargetPut(a, b, p) && Ours(base, p.iqn)
    ensures Spares(a, b, base, {})
  {
    hide Ours;
  }

  lemma PortalSpares(a: Fs, b: Fs, base: string, x: PortalPath)
    requires b == a || b == a.(portals := a.portals - {x}) || PortalPut(a, b, x)
    requires Ours(base, x.tpg.iqn)
    ensures Spares(a, b, base, {})
  {
    hide Ours;
  }

  lemma LunSpares(a: Fs, b: Fs, base: string, x: LinkPath, d: DevPath)
    requires (LunCut(a, b, x.lun) || LunPut(a, b, x, d)) && Ours(base, x.lun.tpg.iqn)
    ensures Spares(a, b, base, {})
  {
    hide Ours;
  }

  lemma FileSpares(a: Fs, b: Fs, base: string, f: string, size: int)
    requires FileTouched(a, b, f, size)
    ensures Spares(a, b, base, {f})
  {
    hide Ours, Zeros;
  }

  lemma BackstoreSpares(a: Fs, b: Fs, base: string, d: DevPath, file: string, size: int)
    requires BackstorePut(a, b, d, file, size)
    ensures Spares(a, b, base, {})
  {
    StorageSpares(a, b, base);
  }

  lemma StorageSpares(a: Fs, b: Fs, base: string)
    requires b == a.(root := b.root, hbas := b.hbas, devs := b.devs)
    ensures Spares(a, b, base, {})
  {
    hide Ours;
  }

  lemma OursIsNamed(base: string, iqn: string)
    requires Ours(base, iqn)
    ensures iqn != ""
  {
  }

  lemma OursTarget(c: ServerConfig, pool: StatePool)
    ensures Ours(c.baseIqn, TpgOf(TargetOf(c, pool)).iqn)
  {
  }

  /** The disk files of the registered volumes. */
  function VolumeFiles(c: ServerConfig, s: State): set<string> {
    set p, v | p in s.pools && v in s.pools[p].volumes :: FileOf(c, s.pools[p], s.pools[p].volumes[v])
  }

  function PoolFiles(c: ServerConfig, pool: StatePool): set<string> {
    set v | v in pool.volumes :: FileOf(c, pool, pool.volumes[v])
  }

  lemma PoolFilesAmong(c: ServerConfig, s: State, p: u16)
    requires p in s.pools
    ensures PoolFiles(c, s.pools[p]) <= VolumeFiles(c, s)
  {
    hide ImagePath;
  }

  // What can stop a reconcile besides a fault, whatever registry and kernel look like.

  /** A name in the tree that this server has to read does not parse. */
  ghost predicate Illegible(fs: Fs, base: string) {
    || BadTargets(fs, base)
    || (exists l :: l in fs.luns && Ours(base, l.tpg.iqn) && ParseLun(l.lun).Bad?)
    || BadHbas(fs)
  }

  /** The portal group shares its target directory, or has a LUN that no removal by id can name. */
  ghost predicate Crowded(fs: Fs, p: TpgPath) {
    !AloneInIqn(fs, p) || !LegibleLuns(fs, p)
  }

  /** A listed target that has to go is crowded. */
  ghost predicate CrowdedTarget(fs: Fs, base: string, pools: map<u16, StatePool>) {
    exists t :: TargetListed(fs, base, t) && t.id !in pools && Crowded(fs, TpgOf(t))
  }

  function Devices(s: State): set<DevPath> {
    set p, v | p in s.pools && v in s.pools[p].volumes :: DeviceOf(s.pools[p].volumes[v])
  }

  function PoolIds(s: State): set<u16> {
    set p | p in s.pools :: s.pools[p].id
  }

  /** A link of `b` leads into the directory of a listed device of `a` that is no volume's. */
  ghost predicate Clinging(a: Fs, b: Fs, s: State) {
    exists d, x :: ListedDev(a, d) && d !in Devices(s) && x in b.links && b.links[x].hba == DevOf(BackstoreAt(d)).hba
  }

  /** What an answer other than success takes: `a` is the tree before, `b` the one after. */
  ghost predicate Obstacle(a: Fs, b: Fs, c: ServerConfig, s: State, e: Err) {
    match e
    case Ok => true
    case Fault => true
    case Syntax => Illegible(a, c.baseIqn)
    case Busy => CrowdedTarget(a, c.baseIqn, s.pools) || Clinging(a, b, s)
    case NilDereference => !VolumesNamed(s)
    case _ => false
  }

  /** All listed portal groups have ids of pools. */
  ghost predicate OnlyLive(fs: Fs, base: string, s: State) {
    forall p | Listed(fs, base, p) :: Live(p, s.pools) || ParseTpg(p.tpg).id in PoolIds(s)
  }

  /** Names that are new are ones the server writes: of the devices, and of portal groups with the ids. */
  ghost predicate AddsNames(a: Fs, b: Fs, devs: set<DevPath>, ids: set<u16>) {
    && (forall p | p in b.tpgs && p !in a.tpgs :: ParseTpg(p.tpg).Num? && ParseTpg(p.tpg).id in ids)
    && (forall l | l in b.luns && l !in a.luns :: !ParseLun(l.lun).Bad?)
    && (forall h | h in b.hbas && h !in a.hbas :: !ParseHba(h).BadHba?)
    && b.devs.Keys <= a.devs.Keys + devs
  }

  lemma AddsNothing(a: Fs, devs: set<DevPath>, ids: set<u16>)
    ensures AddsNames(a, a, devs, ids)
  {
  }

  lemma AddsTrans(a: Fs, b: Fs, c: Fs, devs: set<DevPath>, ids: set<u16>, more: set<DevPath>, others: set<u16>)
    requires AddsNames(a, b, devs, ids) && AddsNames(b, c, more, others) && more <= devs && others <= ids
    ensures AddsNames(a, c, devs, ids)
  {
    hide ParseTpg, ParseLun, ParseHba;
  }

  lemma WasIllegible(a: Fs, b: Fs, base: string, devs: set<DevPath>, ids: set<u16>)
    requires AddsNames(a, b, devs, ids) && Illegible(b, base)
    ensures Illegible(a, base)
  {
    hide ParseTpg, ParseLun, ParseHba, Ours;
  }

  lemma BadLunsIllegible(fs: Fs, base: string, p: TpgPath)
    requires BadLuns(fs, p) && Ours(base, p.iqn)
    ensures Illegible(fs, base)
  {
    hide ParseLun, Ours;
  }

  lemma StaysLive(a: Fs, b: Fs, base: string, s: State, devs: set<DevPath>)
    requires OnlyLive(a, base, s) && AddsNames(a, b, devs, PoolIds(s))
    ensures OnlyLive(b, base, s)
  {
    hide ParseTpg, ParseLun, ParseHba, Ours;
  }

  /** In the targets' part of the tree things were only removed, and nothing changed beside it. */
  ghost predicate Shrunk(a: Fs, b: Fs) {
    && b == a.(root := b.root, iqns := b.iqns, tpgs := b.tpgs, portals := b.portals, luns := b.luns, links := b.links)
    && b.iqns <= a.iqns && b.tpgs.Keys <= a.tpgs.Keys && b.luns <= a.luns
  }

  lemma NothingShrunk(a: Fs)
    ensures Shrunk(a, a)
  {
  }

  lemma IqnsGo(a: Fs, b: Fs, p: TpgPath)
    requires TargetCut(a, b, p)
    ensures b.iqns <= a.iqns
  {
  }

  lemma CutShrinks(start: Fs, a: Fs, b: Fs, p: TpgPath)
    requires Shrunk(start, a) && TargetCut(a, b, p)
    ensures Shrunk(start, b)
  {
  }

  lemma ShrunkAddsNothing(a: Fs, b: Fs)
    requires Shrunk(a, b)
    ensures AddsNames(a, b, {}, {})
  {
  }

  lemma WasInTheWay(start: Fs, a: Fs, p: TpgPath)
    requires Shrunk(start, a)
    ensures BadLuns(a, p) ==> BadLuns(start, p)
    ensures Crowded(a, p) ==> Crowded(start, p)
  {
    hide ParseLun, CanonLun;
  }

  lemma TargetPutAdds(a: Fs, b: Fs, t: Target)
    requires TargetPut(a, b, TpgOf(t))
    ensures AddsNames(a, b, {}, {t.id})
  {
  }

  lemma PortalsAddNothing(a: Fs, b: Fs, ids: set<u16>)
    requires b == a.(portals := b.portals)
    ensures AddsNames(a, b, {}, ids)
  {
  }

  lemma LunsCutAdds(a: Fs, b: Fs, ids: set<u16>)
    requires LunsLess(a, b)
    ensures AddsNames(a, b, {}, ids)
  {
  }

  lemma PortalPutAdds(a: Fs, b: Fs, t: Target, portal: string)
    requires PortalPut(a, b, PortalPath(TpgOf(t), portal))
    ensures AddsNames(a, b, {}, {t.id})
  {
  }

  lemma FileAdds(a: Fs, b: Fs, f: string, size: int, devs: set<DevPath>, ids: set<u16>)
    requires FileTouched(a, b, f, size)
    ensures AddsNames(a, b, devs, ids)
  {
    hide Zeros;
  }

  lemma BackstoreAdds(a: Fs, b: Fs, store: Backstore, file: string, size: int, ids: set<u16>)
    requires BackstorePut(a, b, DevOf(store), file, size) && store.kind == FILEIO
    ensures AddsNames(a, b, {DevOf(store)}, ids)
  {
    assert ParseHba(HbaName(FILEIO, store.id)) == Hba(FILEIO, store.id);
  }

  lemma LunAdds(a: Fs, b: Fs, t: Target, lun: u16, name: string, d: DevPath, devs: set<DevPath>)
    requires LunPut(a, b, LinkPath(LunOf(t, lun), name), d)
    ensures AddsNames(a, b, devs, {t.id})
  {
  }

  method DeleteDeadTarget(k: Kernel, t: Target, ghost start: Fs, ghost g: Goal, ghost good: bool) returns (e: Err)
    requires k.fs.Wf()
    requires good ==> Progress(start, k.fs, g) && k.fs.tpgs.Keys <= start.tpgs.Keys
    requires good ==> TpgOf(t) in start.tpgs && Ours(g.base, t.iqn) && TpgOf(t) !in g.tpgs
    modifies k
    ensures k.fs.Wf()
    ensures good ==> Progress(start, k.fs, g) && k.fs.tpgs.Keys <= old(k.fs.tpgs.Keys)
    ensures good ==> e in {Ok, Fault}
    ensures good && e == Ok ==> TpgOf(t) !in k.fs.tpgs
    ensures TargetCut(old(k.fs), k.fs, TpgOf(t))
    ensures t.iqn != "" && e == Ok ==> AloneInIqn(old(k.fs), TpgOf(t)) && t.iqn !in k.fs.iqns
    ensures e in {Ok, Busy, Syntax, Fault}
    ensures e == Syntax ==> BadLuns(old(k.fs), TpgOf(t))
    ensures t.iqn != "" && e == Busy ==> Crowded(old(k.fs), TpgOf(t))
    ensures !k.flaky ==> e != Fault
  {
    hide Progress, Managed, Toward;
    ghost var before := k.fs;
    if good {
      ProgressFacts(start, before, g);
      DeadTargetLegal(start, before, g, TpgOf(t));
    }
    e := Lio.DeleteTarget(k, t);
    if good { AfterDeadTarget(start, before, k.fs, g, TpgOf(t)); }
  }

  /** The loop over the listing `targets` of the tree `start`.  On any tree, a portal group with a
      registered id is still there afterwards, and success means that no target that had to go
      shared its directory with one. */
  method DeleteUnwanted(
      k: Kernel, targets: seq<Target>, pools: map<u16, StatePool>, ghost base: string, ghost start: Fs, ghost g: Goal,
      ghost good: bool)
    returns (e: Err)
    requires k.fs.Wf() && forall t | t in targets :: Ours(base, t.iqn)
    requires k.fs == start && (good ==> Progress(start, start, g))
    requires good ==> forall t | t in targets :: TpgOf(t) in start.tpgs && Ours(g.base, t.iqn)
    requires good ==> forall t | t in targets :: t.id in pools <==> TpgOf(t) in g.tpgs
    requires good ==> forall p | p in start.tpgs && Ours(g.base, p.iqn) :: exists t :: t in targets && TpgOf(t) == p
    modifies k
    ensures k.fs.Wf()
    ensures good ==> Progress(start, k.fs, g)
    ensures good ==> e in {Ok, Fault}
    ensures good && e == Ok ==> NoDeadTargets(k.fs, g)
    ensures KeepsLive(start, k.fs, pools) && Spares(start, k.fs, base, {})
    ensures e == Ok ==> forall t, q | t in targets && t.id !in pools && t.iqn != "" && q in start.tpgs &&
                Live(q, pools) :: q.iqn != t.iqn
    ensures Shrunk(start, k.fs)
    ensures e == Ok ==> forall t | t in targets && t.id !in pools :: t.iqn !in k.fs.iqns
    ensures e in {Ok, Busy, Syntax, Fault}
    ensures e == Syntax ==> exists t :: t in targets && BadLuns(start, TpgOf(t))
    ensures e == Busy ==> exists t :: t in targets && t.id !in pools && Crowded(start, TpgOf(t))
    ensures !k.flaky ==> e != Fault
  {
    hide Progress, TpgOf, Ours, Live, Spares, TargetCut, AloneInIqn, Fs.Wf, Shrunk, Crowded, BadLuns;
    SparesRefl(start, base, {});
    NothingShrunk(start);
    for i := 0 to |targets|
      invariant k.fs.Wf() && KeepsLive(start, k.fs, pools) && Spares(start, k.fs, base, {}) && Shrunk(start, k.fs)
      invariant forall t | t in targets[..i] && t.id !in pools :: t.iqn !in k.fs.iqns
      invariant forall t, q | t in targets[..i] && t.id !in pools && t.iqn != "" && q in start.tpgs &&
                  Live(q, pools) :: q.iqn != t.iqn
      invariant good ==> Progress(start, k.fs, g) && k.fs.tpgs.Keys <= start.tpgs.Keys
      invariant good ==> forall t | t in targets[..i] && TpgOf(t) !in g.tpgs :: TpgOf(t) !in k.fs.tpgs
    {
      assert targets[..i + 1] == targets[..i] + [targets[i]];
      if targets[i].id !in pools {
        ghost var before := k.fs;
        e := DeleteDeadTarget(k, targets[i], start, g, good);
        CutKeepsLive(start, before, k.fs, targets[i], pools);
        CutShrinks(start, before, k.fs, TpgOf(targets[i]));
        WasInTheWay(start, before, TpgOf(targets[i]));
        IqnsGo(before, k.fs, TpgOf(targets[i]));
        OursIsNamed(base, targets[i].iqn);
        Lio.TpgOfIqn(targets[i]);
        TargetCutSpares(before, k.fs, base, TpgOf(targets[i]));
        SparesTrans(start, before, k.fs, base, {}, {});
        if e != Ok { return e; }
        if targets[i].iqn != "" { AloneAmongLive(start, before, targets[i], pools); }
      }
    }
    assert targets[..|targets|] == targets;
    e := Ok;
  }

  lemma ListingCovers(fs: Fs, c: ServerConfig, s: State, targets: seq<Target>)
    requires WellFormed(c, s) && Managed(fs, GoalOf(c, s))
    requires forall p | Listed(fs, c.baseIqn, p) :: TargetAt(c.baseIqn, p) in targets
    requires forall t | t in targets :: TargetListed(fs, c.baseIqn, t)
    ensures var g := GoalOf(c, s);
      && (forall t | t in targets :: TpgOf(t) in fs.tpgs && Ours(g.base, t.iqn))
      && (forall t | t in targets :: t.id in s.pools <==> TpgOf(t) in g.tpgs)
      && (forall p | p in fs.tpgs && Ours(g.base, p.iqn) :: exists t :: t in targets && TpgOf(t) == p)
  {
    var g := GoalOf(c, s);
    forall t | t in targets
      ensures TpgOf(t) in fs.tpgs && Ours(g.base, t.iqn)
      ensures t.id in s.pools <==> TpgOf(t) in g.tpgs
    {
      assert TargetListed(fs, c.baseIqn, t);
      var p :| Listed(fs, c.baseIqn, p) && t == TargetAt(c.baseIqn, p);
      DeadByIdIffUnwanted(fs, c, s, p);
    }
    forall p | p in fs.tpgs && Ours(g.base, p.iqn) ensures exists t :: t in targets && TpgOf(t) == p {
      DeadByIdIffUnwanted(fs, c, s, p);
      assert TargetAt(c.baseIqn, p) in targets;
    }
  }

  method DeleteDeadTargets(k: Kernel, c: ServerConfig, s: State, ghost g: Goal, ghost good: bool) returns (e: Err)
    requires k.fs.Wf()
    requires good ==> WellFormed(c, s) && g == GoalOf(c, s) && g.Wf() && Managed(k.fs, g)
    modifies k
    ensures k.fs.Wf()
    ensures good ==> Progress(old(k.fs), k.fs, g)
    ensures good ==> e in {Ok, Fault}
    ensures good && e == Ok ==> NoDeadTargets(k.fs, g)
    ensures KeepsLive(old(k.fs), k.fs, s.pools) && Spares(old(k.fs), k.fs, c.baseIqn, {})
    ensures e == Ok ==> !DeadBesideLive(old(k.fs), c.baseIqn, s.pools)
    ensures AddsNames(old(k.fs), k.fs, {}, {})
    ensures e == Ok ==> OnlyLive(k.fs, c.baseIqn, s)
    ensures e in {Ok, Busy, Syntax, Fault}
    ensures e == Syntax ==> Illegible(old(k.fs), c.baseIqn)
    ensures e == Busy ==> CrowdedTarget(old(k.fs), c.baseIqn, s.pools)
    ensures !k.flaky ==> e != Fault
  {
    hide Progress, WellFormed, GoalOf, Managed, Goal.Wf, Fs.Wf, TpgOf, Listed, TargetListed, Live, DeadBesideLive,
      Spares, Ours, AddsNames, OnlyLive, Crowded, BadLuns, BadTargets, Shrunk, Illegible;
    NothingShrunk(k.fs);
    ShrunkAddsNothing(k.fs, k.fs);
    if BadTargets(k.fs, c.baseIqn) { BadTargetsIllegible(k.fs, c.baseIqn); }
    ghost var start := k.fs;
    SparesRefl(start, c.baseIqn, {});
    if good {
      NoProgressYet(start, g);
      ListedBase(c, s, start);
    }
    var targets;
    e, targets := Lio.ListTargets(k, c.baseIqn);
    if e != Ok { return e; }
    if good { ListingCovers(start, c, s, targets); }
    ListedIsOurs(start, c.baseIqn, targets);
    e := DeleteUnwanted(k, targets, s.pools, c.baseIqn, start, g, good);
    ShrunkAddsNothing(start, k.fs);
    if e == Syntax {
      ghost var t :| t in targets && BadLuns(start, TpgOf(t));
      Lio.TpgOfIqn(t);
      BadLunsIllegible(start, c.baseIqn, TpgOf(t));
    }
    if e == Ok {
      NoneBesideLive(start, c.baseIqn, targets, s.pools);
      NoneLeft(start, k.fs, c.baseIqn, targets, s);
    }
  }

  lemma BadTargetsIllegible(fs: Fs, base: string)
    requires BadTargets(fs, base)
    ensures Illegible(fs, base)
  {
    hide BadTargets;
  }

  lemma NoneLeft(a: Fs, b: Fs, base: string, targets: seq<Target>, s: State)
    requires forall p | Listed(a, base, p) :: TargetAt(base, p) in targets
    requires Shrunk(a, b) && b.Wf() && forall t | t in targets && t.id !in s.pools :: t.iqn !in b.iqns
    ensures OnlyLive(b, base, s)
  {
    hide Ours, ParseTpg, PoolNameOf, PoolIds;
    forall p | Listed(b, base, p) ensures Live(p, s.pools) {
      assert TargetAt(base, p) in targets && p.iqn in b.iqns;
    }
  }

  lemma ListedIsOurs(fs: Fs, base: string, targets: seq<Target>)
    requires forall t | t in targets :: TargetListed(fs, base, t)
    ensures forall t | t in targets :: Ours(base, t.iqn)
  {
    hide Ours, ParseTpg, PoolNameOf;
    forall t | t in targets ensures Ours(base, t.iqn) { assert TargetListed(fs, base, t); }
  }

  lemma NoneBesideLive(fs: Fs, base: string, targets: seq<Target>, pools: map<u16, StatePool>)
    requires fs.Wf() && forall p | Listed(fs, base, p) :: TargetAt(base, p) in targets
    requires forall t, q | t in targets && t.id !in pools && t.iqn != "" && q in fs.tpgs && Live(q, pools) ::
               q.iqn != t.iqn
    ensures !DeadBesideLive(fs, base, pools)
  {
    hide Ours, ParseTpg, PoolNameOf;
    forall p, q | Listed(fs, base, p) && q in fs.tpgs && !Live(p, pools) && Live(q, pools) ensures q.iqn != p.iqn {
      assert TargetAt(base, p) in targets && p.iqn in fs.iqns;
    }
  }

  lemma ListedBase(c: ServerConfig, s: State, fs: Fs)
    requires WellFormed(c, s) && Managed(fs, GoalOf(c, s))
    ensures !exists p :: p in fs.tpgs && Ours(c.baseIqn, p.iqn) && ParseTpg(p.tpg).Bad?
  {
    hide ManagedLuns, ManagedDevs, WantTpgs, WantLuns, WantDevs, WantFloors, NamesApart, IdsApart, FilesApart,
      VolumesNamed, WellKeyed;
  }

  // What a success means on any registry and kernel.

  /** The portal group is there with the server's attributes, and so is the configured portal. */
  ghost predicate Served(fs: Fs, p: TpgPath, portal: string) {
    p in fs.tpgs && fs.tpgs[p] == EXPORTED && PortalPath(p, portal) in fs.portals
  }

  ghost predicate KeepsServed(a: Fs, b: Fs, portal: string) {
    && (forall p | p in a.tpgs :: p in b.tpgs && (a.tpgs[p] == EXPORTED ==> b.tpgs[p] == EXPORTED))
    && (forall x | x in a.portals && x.portal == portal :: x in b.portals)
  }

  lemma StaysServed(a: Fs, b: Fs, portal: string)
    requires KeepsServed(a, b, portal)
    ensures forall p | Served(a, p, portal) :: Served(b, p, portal)
  {
  }

  lemma ServedTrans(a: Fs, b: Fs, c: Fs, portal: string)
    requires KeepsServed(a, b, portal) && KeepsServed(b, c, portal)
    ensures KeepsServed(a, c, portal)
  {
  }

  /** The volume's LUN is there with a link of its name. */
  ghost predicate Linked(fs: Fs, c: ServerConfig, pool: StatePool, volume: StateVolume) {
    LinkOf(c, pool, volume).lun in fs.luns && LinkOf(c, pool, volume) in fs.links
  }

  ghost predicate KeepsLinked(a: Fs, b: Fs) {
    a.luns <= b.luns && a.links.Keys <= b.links.Keys
  }

  lemma KeepsTrans(a: Fs, b: Fs, c: Fs, portal: string)
    requires KeepsServed(a, b, portal) && KeepsLinked(a, b)
    requires KeepsServed(b, c, portal) && KeepsLinked(b, c)
    ensures KeepsServed(a, c, portal) && KeepsLinked(a, c)
  {
  }

  lemma StaysLinked(a: Fs, b: Fs, c: ServerConfig, pool: StatePool)
    requires KeepsLinked(a, b)
    ensures forall v | v in pool.volumes && Linked(a, c, pool, pool.volumes[v]) :: Linked(b, c, pool, pool.volumes[v])
  {
    hide LinkOf;
  }

  lemma NothingChanged(a: Fs, portal: string)
    ensures KeepsServed(a, a, portal) && KeepsLinked(a, a)
  {
  }

  /** Every pool is served and every volume linked. */
  ghost predicate AllServed(fs: Fs, c: ServerConfig, s: State) {
    forall p | p in s.pools ::
      && Served(fs, TpgOf(TargetOf(c, s.pools[p])), c.portal)
      && forall v | v in s.pools[p].volumes :: Linked(fs, c, s.pools[p], s.pools[p].volumes[v])
  }

  lemma TargetPutKeepsServed(a: Fs, b: Fs, p: TpgPath, portal: string)
    requires TargetPut(a, b, p)
    ensures KeepsServed(a, b, portal)
  {
  }

  lemma PortalPutKeepsServed(a: Fs, b: Fs, x: PortalPath, portal: string)
    requires PortalPut(a, b, x)
    ensures KeepsServed(a, b, portal)
  {
  }

  // Phase 2: the pools' targets.

  /** The pool's portal group is exported on exactly the configured portal and holds no LUN
      that is not wanted. */
  ghost predicate PoolDone(fs: Fs, g: Goal, p: TpgPath) {
    && p in g.tpgs
    && p in fs.tpgs && fs.tpgs[p] == EXPORTED
    && PortalPath(p, g.portal) in fs.portals
    && (forall x | x in fs.portals && x.tpg == p :: x.portal == g.portal)
    && (forall l | l in fs.luns && l.tpg == p :: l in g.luns)
  }

  lemma PoolStaysDone(a: Fs, b: Fs, g: Goal, p: TpgPath)
    requires PoolDone(a, g, p) && Toward(a, b, g)
    ensures PoolDone(b, g, p)
  {
    assert g.WantsPortal(PortalPath(p, g.portal));
  }

  /** The goal wants this pool's target, and of its LUNs exactly those of the pool's volumes. */
  ghost predicate AsksPool(c: ServerConfig, pool: StatePool, g: Goal) {
    && g.portal == c.portal
    && TpgOf(TargetOf(c, pool)) in g.tpgs
    && forall v: u16 :: v in pool.volumes <==> LunOf(TargetOf(c, pool), v) in g.luns
  }

  method DropStalePortal(
      k: Kernel, t: Target, portal: string, ghost start: Fs, ghost g: Goal, ghost good: bool) returns (e: Err)
    requires k.fs.Wf()
    requires good ==> Progress(start, k.fs, g) && TpgOf(t) in g.tpgs && portal != g.portal
    modifies k
    ensures k.fs.Wf()
    ensures good ==> Progress(start, k.fs, g)
    ensures k.fs == old(k.fs) || k.fs == old(k.fs).(portals := old(k.fs.portals) - {PortalPath(TpgOf(t), portal)})
    ensures e in {Ok, Fault}
    ensures e == Ok ==> PortalPath(TpgOf(t), portal) !in k.fs.portals
    ensures !k.flaky ==> e != Fault
  {
    hide Progress, Managed, Toward;
    ghost var before := k.fs;
    if good { ProgressFacts(start, before, g); }
    e := Lio.DeletePortal(k, t, portal);
    if good { AfterStalePortal(start, before, k.fs, g, PortalPath(TpgOf(t), portal)); }
  }

  method DropStalePortals(
      k: Kernel, c: ServerConfig, t: Target, ghost start: Fs, ghost g: Goal, ghost good: bool) returns (e: Err)
    requires k.fs.Wf() && Ours(c.baseIqn, t.iqn)
    requires good ==> Progress(start, k.fs, g) && TpgOf(t) in g.tpgs && g.portal == c.portal
    modifies k
    ensures k.fs.Wf()
    ensures good ==> Progress(start, k.fs, g)
    ensures k.fs == old(k.fs).(portals := k.fs.portals) && Spares(old(k.fs), k.fs, c.baseIqn, {})
    ensures forall x | x in old(k.fs.portals) && x.portal == c.portal :: x in k.fs.portals
    ensures e in {Ok, Fault}
    ensures good && e == Ok ==> forall x | x in k.fs.portals && x.tpg == TpgOf(t) :: x.portal == g.portal
    ensures !k.flaky ==> e != Fault
  {
    hide Progress, Managed, Toward, TpgOf, Goal.Wf, Goal.Closed, Fs.Wf, Spares, Ours;
    ghost var p := TpgOf(t);
    Lio.TpgOfIqn(t);
    SparesRefl(k.fs, c.baseIqn, {});
    if good { ProgressFacts(start, k.fs, g); }
    var portals;
    e, portals := Lio.ListPortals(k, t);
    if e != Ok { return e; }
    ghost var listed := k.fs;
    for i := 0 to |portals|
      invariant good ==> Progress(start, k.fs, g)
      invariant k.fs.Wf()
      invariant k.fs == listed.(portals := k.fs.portals) && k.fs.portals <= listed.portals
      invariant Spares(listed, k.fs, c.baseIqn, {})
      invariant forall x | x in listed.portals && x.portal == c.portal :: x in k.fs.portals
      invariant good ==> forall q | q in portals[..i] && q != g.portal :: PortalPath(p, q) !in k.fs.portals
    {
      assert portals[..i + 1] == portals[..i] + [portals[i]];
      if portals[i] == c.portal { continue; }
      ghost var before := k.fs;
      e := DropStalePortal(k, t, portals[i], start, g, good);
      PortalSpares(before, k.fs, c.baseIqn, PortalPath(p, portals[i]));
      SparesTrans(listed, before, k.fs, c.baseIqn, {}, {});
      if e != Ok { return e; }
    }
    assert portals[..|portals|] == portals;
    assert forall x | x in listed.portals && x.tpg == p :: x == PortalPath(p, x.portal);
    e := Ok;
  }

  method DropStaleLun(k: Kernel, t: Target, lun: u16, ghost start: Fs, ghost g: Goal, ghost good: bool) returns (e: Err)
    requires k.fs.Wf()
    requires good ==> Progress(start, k.fs, g) && TpgOf(t) in g.tpgs && LunOf(t, lun) !in g.luns
    modifies k
    ensures k.fs.Wf()
    ensures good ==> Progress(start, k.fs, g)
    ensures LunCut(old(k.fs), k.fs, LunOf(t, lun))
    ensures e in {Ok, Fault}
    ensures e == Ok ==> LunOf(t, lun) !in k.fs.luns
    ensures !k.flaky ==> e != Fault
  {
    hide Progress, Managed, Toward;
    ghost var before := k.fs;
    if good { ProgressFacts(start, before, g); }
    e := Lio.DeleteLUN(k, t, lun);
    if good { AfterStaleLun(start, before, k.fs, g, LunOf(t, lun)); }
  }

  lemma LunIsIn(t: Target, id: u16)
    ensures LunOf(t, id).tpg.iqn == t.iqn
  {
  }

  /** Only LUNs and links were removed. */
  ghost predicate LunsLess(a: Fs, b: Fs) {
    b == a.(luns := b.luns, links := b.links) && b.luns <= a.luns
  }

  lemma NoLunsLess(a: Fs)
    ensures LunsLess(a, a)
  {
  }

  lemma NoMoreLuns(a: Fs, b: Fs)
    requires LunsLess(a, b)
    ensures b.luns <= a.luns
  {
  }

  lemma OnlyLunsCut(a: Fs, b: Fs, c: Fs, l: LunPath)
    requires LunsLess(a, b) && LunCut(b, c, l)
    ensures LunsLess(a, c) && c.luns <= b.luns
  {
  }

  lemma LunNamesCanon(fs: Fs, g: Goal, t: Target)
    requires g.Wf() && Managed(fs, g) && TpgOf(t) in g.tpgs
    ensures forall l | l in fs.luns && l.tpg == TpgOf(t) :: ParseLun(l.lun).Num? && l == LunOf(t, ParseLun(l.lun).id)
  {
  }

  method DropStaleLuns(
      k: Kernel, t: Target, volumes: map<u16, StateVolume>, ghost base: string, ghost start: Fs, ghost g: Goal,
      ghost good: bool)
    returns (e: Err)
    requires k.fs.Wf() && Ours(base, t.iqn)
    requires good ==> Progress(start, k.fs, g) && TpgOf(t) in g.tpgs
    requires good ==> forall v: u16 :: v in volumes <==> LunOf(t, v) in g.luns
    modifies k
    ensures k.fs.Wf()
    ensures good ==> Progress(start, k.fs, g)
    ensures LunsLess(old(k.fs), k.fs) && Spares(old(k.fs), k.fs, base, {})
    ensures good ==> e in {Ok, Fault}
    ensures good && e == Ok ==> forall l | l in k.fs.luns && l.tpg == TpgOf(t) :: l in g.luns
    ensures e in {Ok, Syntax, Fault} && (e == Syntax ==> BadLuns(old(k.fs), TpgOf(t)))
    ensures !k.flaky ==> e != Fault
  {
    hide Progress, Managed, Toward, TpgOf, LunOf, Goal.Wf, Goal.Closed, Fs.Wf, ParseLun, LunListed, LunCut,
      Spares, Ours, BadLuns, LunsLess;
    SparesRefl(k.fs, base, {});
    NoLunsLess(k.fs);
    if good {
      ProgressFacts(start, k.fs, g);
      LunNamesCanon(k.fs, g, t);
    }
    var luns;
    e, luns := Lio.ListLUNs(k, t);
    if e != Ok { return e; }
    ghost var listed := k.fs;
    for i := 0 to |luns|
      invariant good ==> Progress(start, k.fs, g)
      invariant k.fs.Wf()
      invariant LunsLess(listed, k.fs)
      invariant Spares(listed, k.fs, base, {})
      invariant good ==> forall n | n in luns[..i] && n !in volumes :: LunOf(t, n) !in k.fs.luns
    {
      assert luns[..i + 1] == luns[..i] + [luns[i]];
      if luns[i] in volumes { continue; }
      ghost var before := k.fs;
      e := DropStaleLun(k, t, luns[i], start, g, good);
      OnlyLunsCut(listed, before, k.fs, LunOf(t, luns[i]));
      LunIsIn(t, luns[i]);
      LunSpares(before, k.fs, base, LinkPath(LunOf(t, luns[i]), ""), DevPath("", ""));
      SparesTrans(listed, before, k.fs, base, {}, {});
      if e != Ok { return e; }
    }
    assert luns[..|luns|] == luns;
    NoMoreLuns(listed, k.fs);
    e := Ok;
  }

  /** Upsert and portals of one pool, before its LUNs are looked at. */
  method ReconcilePortals(
      k: Kernel, c: ServerConfig, t: Target, ghost start: Fs, ghost g: Goal, ghost good: bool) returns (e: Err)
    requires k.fs.Wf()
    requires good ==> Progress(start, k.fs, g) && NoDeadTargets(k.fs, g)
    requires Ours(c.baseIqn, t.iqn) && (good ==> TpgOf(t) in g.tpgs && g.portal == c.portal)
    modifies k
    ensures k.fs.Wf() && Spares(old(k.fs), k.fs, c.baseIqn, {})
    ensures old(k.fs.tpgs.Keys) <= k.fs.tpgs.Keys
    ensures KeepsServed(old(k.fs), k.fs, c.portal)
    ensures e == Ok ==> Served(k.fs, TpgOf(t), c.portal)
    ensures AddsNames(old(k.fs), k.fs, {}, {t.id})
    ensures good ==> Progress(start, k.fs, g) && NoDeadTargets(k.fs, g)
    ensures e in {Ok, Fault}
    ensures good && e == Ok ==> TpgOf(t) in k.fs.tpgs && k.fs.tpgs[TpgOf(t)] == EXPORTED
    ensures good && e == Ok ==> PortalPath(TpgOf(t), g.portal) in k.fs.portals
    ensures good && e == Ok ==> forall x | x in k.fs.portals && x.tpg == TpgOf(t) :: x.portal == g.portal
    ensures !k.flaky ==> e != Fault
  {
    hide Progress, Managed, Toward, TpgOf, Goal.Wf, Goal.Closed, Fs.Wf, TargetPut, PortalPut, Spares, Ours,
      AddsNames;
    ghost var p := TpgOf(t);
    Lio.TpgOfIqn(t);
    OursIsNamed(c.baseIqn, t.iqn);
    ghost var f0 := k.fs;
    if good { ProgressFacts(start, f0, g); }
    e := Lio.UpsertTarget(k, t);
    ghost var f1 := k.fs;
    TargetPutSpares(f0, f1, c.baseIqn, p);
    TargetPutKeepsServed(f0, f1, p, c.portal);
    TargetPutAdds(f0, f1, t);
    if good { AfterLiveTarget(start, f0, f1, g, p); }
    if e != Ok { return e; }
    e := DropStalePortals(k, c, t, start, g, good);
    ghost var f2 := k.fs;
    SparesTrans(f0, f1, f2, c.baseIqn, {}, {});
    PortalsAddNothing(f1, f2, {t.id});
    AddsTrans(f0, f1, f2, {}, {t.id}, {}, {t.id});
    if good { ProgressFacts(start, f2, g); }
    if e != Ok { return e; }
    e := Lio.UpsertPortal(k, t, c.portal);
    PortalSpares(f2, k.fs, c.baseIqn, PortalPath(p, c.portal));
    PortalPutKeepsServed(f2, k.fs, PortalPath(p, c.portal), c.portal);
    PortalPutAdds(f2, k.fs, t, c.portal);
    AddsTrans(f0, f2, k.fs, {}, {t.id}, {}, {t.id});
    SparesTrans(f0, f2, k.fs, c.baseIqn, {}, {});
    if good { AfterPortal(start, f2, k.fs, g, PortalPath(p, c.portal)); }
  }

  method ReconcilePool(
      k: Kernel, c: ServerConfig, pool: StatePool, ghost start: Fs, ghost g: Goal, ghost good: bool) returns (e: Err)
    requires k.fs.Wf()
    requires good ==> Progress(start, k.fs, g) && NoDeadTargets(k.fs, g) && AsksPool(c, pool, g)
    modifies k
    ensures k.fs.Wf() && Spares(old(k.fs), k.fs, c.baseIqn, {})
    ensures old(k.fs.tpgs.Keys) <= k.fs.tpgs.Keys
    ensures KeepsServed(old(k.fs), k.fs, c.portal)
    ensures e == Ok ==> Served(k.fs, TpgOf(TargetOf(c, pool)), c.portal)
    ensures good ==> Progress(start, k.fs, g) && NoDeadTargets(k.fs, g)
    ensures good ==> e in {Ok, Fault}
    ensures good && e == Ok ==> PoolDone(k.fs, g, TpgOf(TargetOf(c, pool)))
    ensures AddsNames(old(k.fs), k.fs, {}, {pool.id})
    ensures e in {Ok, Syntax, Fault} && (e == Syntax ==> Illegible(old(k.fs), c.baseIqn))
    ensures !k.flaky ==> e != Fault
  {
    hide Progress, TpgOf, LunOf, Spares, Ours, AddsNames, Illegible, BadLuns;
    var t := TargetOf(c, pool);
    OursTarget(c, pool);
    Lio.TpgOfIqn(t);
    ghost var f0 := k.fs;
    e := ReconcilePortals(k, c, t, start, g, good);
    if e != Ok { return e; }
    ghost var f1 := k.fs;
    e := DropStaleLuns(k, t, pool.volumes, c.baseIqn, start, g, good);
    SparesTrans(f0, f1, k.fs, c.baseIqn, {}, {});
    LunsCutAdds(f1, k.fs, {pool.id});
    AddsTrans(f0, f1, k.fs, {}, {pool.id}, {}, {pool.id});
    if e == Syntax {
      BadLunsIllegible(f1, c.baseIqn, TpgOf(t));
      WasIllegible(f0, f1, c.baseIqn, {}, {pool.id});
    }
  }

  method ReconcilePools(
      k: Kernel, c: ServerConfig, s: State, ghost start: Fs, ghost g: Goal, ghost good: bool) returns (e: Err)
    requires k.fs.Wf()
    requires good ==> Progress(start, k.fs, g) && NoDeadTargets(k.fs, g)
    requires good ==> forall p | p in s.pools :: AsksPool(c, s.pools[p], g)
    modifies k
    ensures k.fs.Wf() && Spares(old(k.fs), k.fs, c.baseIqn, {})
    ensures old(k.fs.tpgs.Keys) <= k.fs.tpgs.Keys
    ensures KeepsServed(old(k.fs), k.fs, c.portal)
    ensures e == Ok ==> forall p | p in s.pools :: Served(k.fs, TpgOf(TargetOf(c, s.pools[p])), c.portal)
    ensures good ==> Progress(start, k.fs, g) && NoDeadTargets(k.fs, g)
    ensures good ==> e in {Ok, Fault}
    ensures good && e == Ok ==> forall p | p in s.pools :: PoolDone(k.fs, g, TpgOf(TargetOf(c, s.pools[p])))
    ensures AddsNames(old(k.fs), k.fs, {}, PoolIds(s))
    ensures e in {Ok, Syntax, Fault} && (e == Syntax ==> Illegible(old(k.fs), c.baseIqn))
    ensures !k.flaky ==> e != Fault
  {
    hide Progress, TpgOf, TargetOf, PoolDone, AsksPool, Spares, AddsNames, Illegible, KeepsServed, Served,
      KeepsLinked, NoDeadTargets, Fs.Wf;
    NothingChanged(k.fs, c.portal);
    var todo := s.pools.Keys;
    AddsNothing(k.fs, {}, PoolIds(s));
    SparesRefl(k.fs, c.baseIqn, {});
    while todo != {}
      invariant Spares(old(k.fs), k.fs, c.baseIqn, {})
      invariant old(k.fs.tpgs.Keys) <= k.fs.tpgs.Keys
      invariant todo <= s.pools.Keys
      invariant k.fs.Wf() && KeepsServed(old(k.fs), k.fs, c.portal) && AddsNames(old(k.fs), k.fs, {}, PoolIds(s))
      invariant forall p | p in s.pools && p !in todo :: Served(k.fs, TpgOf(TargetOf(c, s.pools[p])), c.portal)
      invariant good ==> Progress(start, k.fs, g) && NoDeadTargets(k.fs, g)
      invariant good ==> forall p | p in s.pools && p !in todo :: PoolDone(k.fs, g, TpgOf(TargetOf(c, s.pools[p])))
      decreases todo
    {
      var p :| p in todo;
      ghost var before := k.fs;
      if good { NoProgressFrom(start, before, g); }
      e := ReconcilePool(k, c, s.pools[p], before, g, good);
      SparesTrans(old(k.fs), before, k.fs, c.baseIqn, {}, {});
      StaysServed(before, k.fs, c.portal);
      ServedTrans(old(k.fs), before, k.fs, c.portal);
      AddsTrans(old(k.fs), before, k.fs, {}, PoolIds(s), {}, {s.pools[p].id});
      if e == Syntax { WasIllegible(old(k.fs), before, c.baseIqn, {}, PoolIds(s)); }
      if good { Chain(start, before, k.fs, g); }
      if e != Ok { return e; }
      if good { ProgressFacts(before, k.fs, g); }
      forall q | good && q in s.pools && q !in todo ensures PoolDone(k.fs, g, TpgOf(TargetOf(c, s.pools[q]))) {
        PoolStaysDone(before, k.fs, g, TpgOf(TargetOf(c, s.pools[q])));
      }
      todo := todo - {p};
    }
    e := Ok;
  }

  // Phase 3: the volumes.


  /** What the goal wants of the volume in the pool's target: the LUN and the backstore `b`,
      whose disk file must have at least `floor` bytes. */
  ghost predicate AsksVolume(c: ServerConfig, pool: StatePool, volume: StateVolume, g: Goal) {
    var d := DeviceOf(volume);
    var f := ImagePath(c.volumesDir, pool.name, volume.name);
    && volume.name != ""
    && d in g.devs && g.devs[d] == f
    && f in g.floors && g.floors[f] == Max(GIB, volume.size)
    && LunOf(TargetOf(c, pool), volume.id) in g.luns
    && g.luns[LunOf(TargetOf(c, pool), volume.id)] == d
  }

  /** The volume's device is as it should be and exported. */
  ghost predicate VolumeDone(fs: Fs, c: ServerConfig, pool: StatePool, volume: StateVolume, g: Goal) {
    var d := DeviceOf(volume);
    var l := LunOf(TargetOf(c, pool), volume.id);
    && d in g.devs && DevGood(fs, g, d) && SerialOf(fs, d) != ""
    && l in fs.luns && LinkPath(l, volume.name) in fs.links
  }

  /** What the phase keeps: nothing unwanted is exported, and every wanted portal group exists. */
  ghost predicate Trim(fs: Fs, g: Goal) {
    && NoDeadTargets(fs, g)
    && (forall p | p in g.tpgs :: PoolDone(fs, g, p))
  }

  lemma StaysTrim(a: Fs, b: Fs, g: Goal)
    requires Trim(a, g) && Toward(a, b, g)
    ensures Trim(b, g)
  {
    forall p | p in g.tpgs ensures PoolDone(b, g, p) {
      PoolStaysDone(a, b, g, p);
    }
  }

  /** Every good device but the one at `d` is still good. */
  ghost predicate OthersGood(a: Fs, b: Fs, g: Goal, d: DevPath) {
    forall o | o in g.devs && o != d && DevGood(a, g, o) :: DevGood(b, g, o)
  }

  lemma AfterFile(start: Fs, a: Fs, b: Fs, g: Goal, d: DevPath)
    requires Progress(start, a, g) && Trim(a, g) && b.Wf()
    requires d in g.devs && FileTouched(a, b, g.devs[d], g.Floor(g.devs[d]))
    ensures Progress(start, b, g) && Trim(b, g) && OthersGood(a, b, g, d)
  {
    FileStep(a, b, g, g.devs[d]);
    Advance(start, a, b, g);
    StaysTrim(a, b, g);
  }

  lemma AfterBackstore(start: Fs, a: Fs, b: Fs, g: Goal, d: DevPath)
    requires Progress(start, a, g) && Trim(a, g) && b.Wf()
    requires d in g.devs && BackstorePut(a, b, d, g.devs[d], a.Length(g.devs[d]))
    ensures Progress(start, b, g) && Trim(b, g) && OthersGood(a, b, g, d)
    ensures b.files == a.files
  {
    BackstoreStep(a, b, g, d);
    Advance(start, a, b, g);
    StaysTrim(a, b, g);
  }

  lemma AfterLun(start: Fs, a: Fs, b: Fs, g: Goal, x: LinkPath, d: DevPath)
    requires Progress(start, a, g) && Trim(a, g) && b.Wf()
    requires x.lun in g.luns && g.WantsLink(x, d) && LunPut(a, b, x, d)
    ensures Progress(start, b, g) && Trim(b, g)
    ensures b.files == a.files && b.devs == a.devs
  {
    LunStep(a, b, g, x, d);
    Advance(start, a, b, g);
    StaysTrim(a, b, g);
  }

  lemma FileKeepsTargets(a: Fs, b: Fs, f: string, size: int, portal: string)
    requires FileTouched(a, b, f, size)
    ensures b.tpgs == a.tpgs && KeepsServed(a, b, portal) && KeepsLinked(a, b)
  {
    hide Zeros;
  }

  lemma BackstoreKeepsTargets(a: Fs, b: Fs, d: DevPath, f: string, size: int, portal: string)
    requires BackstorePut(a, b, d, f, size)
    ensures b.tpgs == a.tpgs && KeepsServed(a, b, portal) && KeepsLinked(a, b)
  {
    hide DevSet;
  }

  lemma LunKeepsTargets(a: Fs, b: Fs, x: LinkPath, d: DevPath, portal: string)
    requires LunPut(a, b, x, d)
    ensures a.tpgs.Keys <= b.tpgs.Keys && KeepsServed(a, b, portal) && KeepsLinked(a, b)
  {
  }

  method ReconcileVolume(
      k: Kernel, c: ServerConfig, pool: StatePool, volume: StateVolume, ghost start: Fs, ghost g: Goal,
      ghost good: bool)
    returns (e: Err, backstore: Backstore)
    requires k.fs.Wf()
    requires good ==> Progress(start, k.fs, g) && Trim(k.fs, g) && AsksVolume(c, pool, volume, g)
    modifies k
    ensures k.fs.Wf() && Spares(old(k.fs), k.fs, c.baseIqn, {FileOf(c, pool, volume)})
    ensures old(k.fs.tpgs.Keys) <= k.fs.tpgs.Keys
    ensures KeepsServed(old(k.fs), k.fs, c.portal) && KeepsLinked(old(k.fs), k.fs)
    ensures e == Ok ==> Linked(k.fs, c, pool, volume)
    ensures AddsNames(old(k.fs), k.fs, {DeviceOf(volume)}, {pool.id})
    ensures e in {Ok, Fault, NilDereference} && (e == NilDereference ==> volume.name == "")
    ensures good ==> Progress(start, k.fs, g) && Trim(k.fs, g)
    ensures good ==> OthersGood(old(k.fs), k.fs, g, DeviceOf(volume))
    ensures good ==> e in {Ok, Fault}
    ensures good && e == Ok ==> VolumeDone(k.fs, c, pool, volume, g)
    ensures backstore.kind == FILEIO && backstore.id == volume.id && backstore.name == volume.name
    ensures good ==> DevOf(backstore) in g.devs
    ensures !k.flaky ==> e != Fault
  {
    hide Progress, Managed, Toward, Trim, Fs.Wf, Goal.Wf, Goal.Closed, BackstorePut, LunPut, FileTouched,
      HbaName, TpgOf, ImagePath, OthersGood, VolumeDone, Spares, Ours, KeepsServed, KeepsLinked,
      AddsNames;
    var t := TargetOf(c, pool);
    backstore := Backstore(FILEIO, volume.id, volume.name, ImagePath(c.volumesDir, pool.name, volume.name), 0);
    ghost var d := DeviceOf(volume);
    ghost var f0 := k.fs;
    if good { ProgressFacts(start, f0, g); }
    var size;
    e, size := Lio.TouchDiskFile(k, backstore.filePath, Max(GIB, volume.size));
    ghost var f1 := k.fs;
    ghost var x := LinkPath(LunOf(t, volume.id), volume.name);
    FileKeepsTargets(f0, f1, backstore.filePath, Max(GIB, volume.size), c.portal);
    ghost var base, files := c.baseIqn, {FileOf(c, pool, volume)};
    FileSpares(f0, f1, base, backstore.filePath, Max(GIB, volume.size));
    FileAdds(f0, f1, backstore.filePath, Max(GIB, volume.size), {d}, {pool.id});
    if good { AfterFile(start, f0, f1, g, d); }
    if e != Ok { return e, backstore; }
    backstore := backstore.(fileSize := size);
    e := Lio.UpsertBackstore(k, backstore);
    ghost var f2 := k.fs;
    BackstoreKeepsTargets(f1, f2, d, backstore.filePath, size, c.portal);
    KeepsTrans(f0, f1, f2, c.portal);
    BackstoreSpares(f1, f2, base, d, backstore.filePath, size);
    SparesTrans(f0, f1, f2, base, {}, files);
    BackstoreAdds(f1, f2, backstore, backstore.filePath, size, {pool.id});
    AddsTrans(f0, f1, f2, {d}, {pool.id}, {d}, {pool.id});
    if good {
      AfterBackstore(start, f1, f2, g, d);
      OthersStayGood(f0, f1, f2, g, d);
    }
    if e != Ok { return e, backstore; }
    e := Lio.UpsertLUN(k, t, volume.id, backstore);
    LunKeepsTargets(f2, k.fs, x, d, c.portal);
    KeepsTrans(f0, f2, k.fs, c.portal);
    OursTarget(c, pool);
    LunIsIn(t, volume.id);
    Lio.TpgOfIqn(t);
    LunSpares(f2, k.fs, base, x, d);
    SparesTrans(f0, f2, k.fs, base, {}, files);
    LunAdds(f2, k.fs, t, volume.id, volume.name, d, {d});
    AddsTrans(f0, f2, k.fs, {d}, {pool.id}, {d}, {pool.id});
    if good {
      AfterLun(start, f2, k.fs, g, x, d);
      SameDevsGood(f2, k.fs, g, d);
      OthersStayGood(f0, f2, k.fs, g, d);
    }
    if good && e == Ok { VolumeIsDone(k.fs, c, pool, volume, g); }
  }

  lemma OthersStayGood(a: Fs, b: Fs, c: Fs, g: Goal, d: DevPath)
    requires OthersGood(a, b, g, d) && OthersGood(b, c, g, d)
    ensures OthersGood(a, c, g, d)
  {
    hide DevGood;
  }

  lemma SameDevsGood(a: Fs, b: Fs, g: Goal, d: DevPath)
    requires b.files == a.files && b.devs == a.devs
    ensures OthersGood(a, b, g, d)
  {
  }

  lemma VolumeIsDone(fs: Fs, c: ServerConfig, pool: StatePool, volume: StateVolume, g: Goal)
    requires AsksVolume(c, pool, volume, g)
    requires var d, f, l := DeviceOf(volume), ImagePath(c.volumesDir, pool.name, volume.name), LunOf(TargetOf(c,
             pool), volume.id);
      && d in fs.devs && f in fs.files && fs.Length(f) >= Max(GIB, volume.size) && DevSet(fs.devs[d], f, fs.Length(f))
      && SerialOf(fs, d) != ""
      && l in fs.luns && LinkPath(l, volume.name) in fs.links
    ensures VolumeDone(fs, c, pool, volume, g)
  {
    hide HbaName, TpgOf, ImagePath;
  }

  lemma VolumeStaysDone(a: Fs, b: Fs, c: ServerConfig, pool: StatePool, volume: StateVolume, g: Goal)
    requires VolumeDone(a, c, pool, volume, g) && AsksVolume(c, pool, volume, g)
    requires Progress(a, b, g) && DevGood(b, g, DeviceOf(volume))
    ensures VolumeDone(b, c, pool, volume, g)
  {
    hide TowardTargets, TowardDevs, TowardFile, Managed, Goal.Wf, HbaName, TpgOf, LunName, ImagePath, DevSet;
    SerialsKept(a, b, g);
  }

  /** The devices of a pool's volumes. */
  function DevicesOf(pool: StatePool): set<DevPath> {
    set v | v in pool.volumes :: DeviceOf(pool.volumes[v])
  }

  /** No device outside `mine` got worse. */
  ghost predicate KeepsGood(a: Fs, b: Fs, g: Goal, mine: set<DevPath>) {
    forall o | o in g.devs && o !in mine && DevGood(a, g, o) :: DevGood(b, g, o)
  }

  ghost predicate AsksVolumes(c: ServerConfig, pool: StatePool, g: Goal) {
    && (forall v | v in pool.volumes :: AsksVolume(c, pool, pool.volumes[v], g))
    && (forall u, v | u in pool.volumes && v in pool.volumes &&
        DeviceOf(pool.volumes[u]) == DeviceOf(pool.volumes[v]) :: u == v)
  }

  /** The volumes of the pool whose ids are not in `todo` are exported, and listed in `backstores`. */
  ghost predicate PoolExported(fs: Fs, c: ServerConfig, pool: StatePool, todo: set<u16>, g: Goal) {
    forall v | v in pool.volumes && v !in todo :: VolumeDone(fs, c, pool, pool.volumes[v], g)
  }

  lemma PoolStaysExported(a: Fs, b: Fs, c: ServerConfig, pool: StatePool, todo: set<u16>, mine: set<DevPath>, g: Goal)
    requires PoolExported(a, c, pool, todo, g) && AsksVolumes(c, pool, g)
    requires Progress(a, b, g) && KeepsGood(a, b, g, mine)
    requires forall v | v in pool.volumes && v !in todo :: DeviceOf(pool.volumes[v]) !in mine
    ensures PoolExported(b, c, pool, todo, g)
  {
    hide Progress, DevGood, DeviceOf;
    forall v | v in pool.volumes && v !in todo ensures VolumeDone(b, c, pool, pool.volumes[v], g) {
      VolumeStaysDone(a, b, c, pool, pool.volumes[v], g);
    }
  }

  /** `backstores` lists the pool's volumes outside `todo`. */
  predicate ListsVolumes(backstores: seq<Backstore>, pool: StatePool, todo: set<u16>) {
    forall v | v in pool.volumes && v !in todo ::
      exists b :: b in backstores && b.kind == FILEIO && b.id == pool.volumes[v].id && b.name == pool.volumes[v].name
  }

  ghost predicate OnlyWanted(backstores: seq<Backstore>, g: Goal) {
    forall b | b in backstores :: b.kind == FILEIO && DevOf(b) in g.devs
  }

  method ReconcileVolumes(k: Kernel, c: ServerConfig, pool: StatePool, ghost start: Fs, ghost g: Goal, ghost good: bool)
    returns (e: Err, backstores: seq<Backstore>)
    requires k.fs.Wf()
    requires good ==> Progress(start, k.fs, g) && Trim(k.fs, g) && AsksVolumes(c, pool, g)
    modifies k
    ensures k.fs.Wf() && Spares(old(k.fs), k.fs, c.baseIqn, PoolFiles(c, pool))
    ensures old(k.fs.tpgs.Keys) <= k.fs.tpgs.Keys
    ensures KeepsServed(old(k.fs), k.fs, c.portal) && KeepsLinked(old(k.fs), k.fs)
    ensures e == Ok ==> forall v | v in pool.volumes :: Linked(k.fs, c, pool, pool.volumes[v])
    ensures good ==> Progress(start, k.fs, g) && Trim(k.fs, g)
    ensures good ==> KeepsGood(old(k.fs), k.fs, g, DevicesOf(pool))
    ensures good ==> e in {Ok, Fault}
    ensures good ==> OnlyWanted(backstores, g)
    ensures good && e == Ok ==> PoolExported(k.fs, c, pool, {}, g)
    ensures e == Ok ==> ListsVolumes(backstores, pool, {})
    ensures AddsNames(old(k.fs), k.fs, DevicesOf(pool), {pool.id})
    ensures e in {Ok, Fault, NilDereference}
    ensures e == NilDereference ==> exists v :: v in pool.volumes && pool.volumes[v].name == ""
    ensures !k.flaky ==> e != Fault
  {
    hide Progress, Trim, VolumeDone, AsksVolume, DevGood, DeviceOf, Spares, ImagePath, KeepsServed, KeepsLinked,
      Linked, AddsNames, Fs.Wf, HbaName, FileOf;
    backstores := [];
    AddsNothing(k.fs, DevicesOf(pool), {pool.id});
    SparesRefl(k.fs, c.baseIqn, PoolFiles(c, pool));
    NothingChanged(k.fs, c.portal);
    var todo := pool.volumes.Keys;
    while todo != {}
      invariant old(k.fs.tpgs.Keys) <= k.fs.tpgs.Keys
      invariant todo <= pool.volumes.Keys
      invariant k.fs.Wf() && Spares(old(k.fs), k.fs, c.baseIqn, PoolFiles(c, pool))
      invariant KeepsServed(old(k.fs), k.fs, c.portal) && KeepsLinked(old(k.fs), k.fs)
      invariant AddsNames(old(k.fs), k.fs, DevicesOf(pool), {pool.id}) && ListsVolumes(backstores, pool, todo)
      invariant forall v | v in pool.volumes && v !in todo :: Linked(k.fs, c, pool, pool.volumes[v])
      invariant good ==> Progress(start, k.fs, g) && Trim(k.fs, g)
      invariant good ==> KeepsGood(old(k.fs), k.fs, g, DevicesOf(pool))
      invariant good ==>
          && PoolExported(k.fs, c, pool, todo, g) && OnlyWanted(backstores, g)
      decreases todo
    {
      var v :| v in todo;
      ghost var before := k.fs;
      ghost var d := DeviceOf(pool.volumes[v]);
      if good { NoProgressFrom(start, before, g); }
      var b;
      e, b := ReconcileVolume(k, c, pool, pool.volumes[v], before, g, good);
      SparesTrans(old(k.fs), before, k.fs, c.baseIqn, {FileOf(c, pool, pool.volumes[v])}, PoolFiles(c, pool));
      KeepsTrans(old(k.fs), before, k.fs, c.portal);
      StaysLinked(before, k.fs, c, pool);
      AddsTrans(old(k.fs), before, k.fs, DevicesOf(pool), {pool.id}, {d}, {pool.id});
      if good { Chain(start, before, k.fs, g); }
      assert good ==> KeepsGood(before, k.fs, g, {d});
      if e != Ok { return e, backstores; }
      if good { PoolStaysExported(before, k.fs, c, pool, todo, {d}, g); }
      ListOneMore(backstores, b, pool, todo, v);
      backstores := backstores + [b];
      todo := todo - {v};
    }
    e := Ok;
  }

  lemma ListOneMore(backstores: seq<Backstore>, b: Backstore, pool: StatePool, todo: set<u16>, v: u16)
    requires ListsVolumes(backstores, pool, todo) && v in pool.volumes
    requires b.kind == FILEIO && b.id == pool.volumes[v].id && b.name == pool.volumes[v].name
    ensures ListsVolumes(backstores + [b], pool, todo - {v})
  {
    var more := backstores + [b];
    assert more[|backstores|] == b;
    assert forall o | o in backstores :: o in more;
  }

  /** No two pools have a device in common. */
  predicate DevicesApart(s: State) {
    forall p, q | p in s.pools && q in s.pools && p != q :: DevicesOf(s.pools[p]) !! DevicesOf(s.pools[q])
  }

  /** The volumes of the pools outside `todo` are exported, and listed in `backstores`. */
  ghost predicate AllExported(fs: Fs, c: ServerConfig, s: State, backstores: seq<Backstore>, todo: set<u16>, g: Goal) {
    forall p | p in s.pools && p !in todo ::
      PoolExported(fs, c, s.pools[p], {}, g) && ListsVolumes(backstores, s.pools[p], {})
  }

  /** The volumes of the pools outside `todo` are listed in `backstores`. */
  predicate AllListed(s: State, backstores: seq<Backstore>, todo: set<u16>) {
    forall p | p in s.pools && p !in todo :: ListsVolumes(backstores, s.pools[p], {})
  }

  lemma ListMore(backstores: seq<Backstore>, found: seq<Backstore>, pool: StatePool)
    requires ListsVolumes(backstores, pool, {}) || ListsVolumes(found, pool, {})
    ensures ListsVolumes(backstores + found, pool, {})
  {
    var more := backstores + found;
    assert forall o | o in backstores :: o in more;
    assert forall o | o in found :: o in more;
  }

  method ExportAll(k: Kernel, c: ServerConfig, s: State, ghost start: Fs, ghost g: Goal, ghost good: bool)
    returns (e: Err, backstores: seq<Backstore>)
    requires k.fs.Wf()
    requires good ==> Progress(start, k.fs, g) && Trim(k.fs, g)
    requires good ==> DevicesApart(s) && forall p | p in s.pools :: AsksVolumes(c, s.pools[p], g)
    modifies k
    ensures k.fs.Wf() && Spares(old(k.fs), k.fs, c.baseIqn, VolumeFiles(c, s))
    ensures old(k.fs.tpgs.Keys) <= k.fs.tpgs.Keys
    ensures KeepsServed(old(k.fs), k.fs, c.portal) && KeepsLinked(old(k.fs), k.fs)
    ensures e == Ok ==> forall p, v | p in s.pools && v in s.pools[p].volumes ::
              Linked(k.fs, c, s.pools[p], s.pools[p].volumes[v])
    ensures good ==> Progress(start, k.fs, g) && Trim(k.fs, g)
    ensures good ==> e in {Ok, Fault}
    ensures good ==> OnlyWanted(backstores, g)
    ensures good && e == Ok ==> AllExported(k.fs, c, s, backstores, {}, g)
    ensures e == Ok ==> AllListed(s, backstores, {})
    ensures AddsNames(old(k.fs), k.fs, Devices(s), PoolIds(s))
    ensures e in {Ok, Fault, NilDereference} && (e == NilDereference ==> !VolumesNamed(s))
    ensures !k.flaky ==> e != Fault
  {
    hide Progress, Trim, PoolExported, AsksVolumes, DevicesOf, ListsVolumes, KeepsGood, Spares, PoolFiles, VolumeFiles,
      KeepsServed, KeepsLinked, Linked, AddsNames, Devices, VolumesNamed, PoolIds;
    backstores := [];
    var todo := s.pools.Keys;
    AddsNothing(k.fs, Devices(s), PoolIds(s));
    SparesRefl(k.fs, c.baseIqn, VolumeFiles(c, s));
    NothingChanged(k.fs, c.portal);
    while todo != {}
      invariant Spares(old(k.fs), k.fs, c.baseIqn, VolumeFiles(c, s))
      invariant KeepsServed(old(k.fs), k.fs, c.portal) && KeepsLinked(old(k.fs), k.fs)
      invariant forall p, v | p in s.pools && p !in todo && v in s.pools[p].volumes ::
                  Linked(k.fs, c, s.pools[p], s.pools[p].volumes[v])
      invariant old(k.fs.tpgs.Keys) <= k.fs.tpgs.Keys
      invariant todo <= s.pools.Keys
      invariant k.fs.Wf()
      invariant good ==> Progress(start, k.fs, g) && Trim(k.fs, g)
      invariant AddsNames(old(k.fs), k.fs, Devices(s), PoolIds(s)) && AllListed(s, backstores, todo)
      invariant good ==> AllExported(k.fs, c, s, backstores, todo, g) && OnlyWanted(backstores, g)
      decreases todo
    {
      var p :| p in todo;
      ghost var before := k.fs;
      if good { NoProgressFrom(start, before, g); }
      var found;
      e, found := ReconcileVolumes(k, c, s.pools[p], before, g, good);
      PoolFilesAmong(c, s, p);
      SparesTrans(old(k.fs), before, k.fs, c.baseIqn, PoolFiles(c, s.pools[p]), VolumeFiles(c, s));
      KeepsTrans(old(k.fs), before, k.fs, c.portal);
      PartsOf(s, p);
      AddsTrans(old(k.fs), before, k.fs, Devices(s), PoolIds(s), DevicesOf(s.pools[p]), {s.pools[p].id});
      if e == NilDereference { NamelessVolume(s, p); }
      forall q | q in s.pools
        ensures forall v | v in s.pools[q].volumes && Linked(before, c, s.pools[q], s.pools[q].volumes[v]) ::
                  Linked(k.fs, c, s.pools[q], s.pools[q].volumes[v])
      {
        StaysLinked(before, k.fs, c, s.pools[q]);
      }
      if good { Chain(start, before, k.fs, g); }
      if e != Ok { return e, backstores; }
      forall q | q in s.pools && q !in todo - {p}
        ensures ListsVolumes(backstores + found, s.pools[q], {})
      {
        ListMore(backstores, found, s.pools[q]);
      }
      forall q | good && q in s.pools && q !in todo - {p} ensures PoolExported(k.fs, c, s.pools[q], {}, g) {
        if q != p {
          DisjointDevices(s, p, q);
          PoolStaysExported(before, k.fs, c, s.pools[q], {}, DevicesOf(s.pools[p]), g);
        }
      }
      backstores := backstores + found;
      todo := todo - {p};
    }
    e := Ok;
  }

  lemma PartsOf(s: State, p: u16)
    requires p in s.pools
    ensures DevicesOf(s.pools[p]) <= Devices(s) && s.pools[p].id in PoolIds(s)
  {
    hide DeviceOf;
  }

  lemma NamelessVolume(s: State, p: u16)
    requires p in s.pools && exists v :: v in s.pools[p].volumes && s.pools[p].volumes[v].name == ""
    ensures !VolumesNamed(s)
  {
    var v :| v in s.pools[p].volumes && s.pools[p].volumes[v].name == "";
    assert VolKey(p, v) in VolKeys(s) && VolOf(s, VolKey(p, v)).name == "";
  }

  lemma DisjointDevices(s: State, p: u16, q: u16)
    requires DevicesApart(s) && p in s.pools && q in s.pools && p != q
    ensures forall v | v in s.pools[q].volumes :: DeviceOf(s.pools[q].volumes[v]) !in DevicesOf(s.pools[p])
  {
    assert DevicesOf(s.pools[p]) !! DevicesOf(s.pools[q]);
    forall v | v in s.pools[q].volumes ensures DeviceOf(s.pools[q].volumes[v]) !in DevicesOf(s.pools[p]) {
      assert DeviceOf(s.pools[q].volumes[v]) in DevicesOf(s.pools[q]);
    }
  }

  // Phase 4: backstores nobody wants.

  /** The test of the collection loop: same id, type and name. */
  predicate Contains(backstores: seq<Backstore>, b: Backstore) {
    exists o | o in backstores :: o.id == b.id && o.kind == b.kind && o.name == b.name
  }

  /** Every wanted device is as it should be and has a serial. */
  ghost predicate AllGood(fs: Fs, g: Goal) {
    forall d | d in g.devs :: DevGood(fs, g, d) && SerialOf(fs, d) != ""
  }

  lemma LinksWanted(start: Fs, fs: Fs, g: Goal)
    requires Progress(start, fs, g) && Trim(fs, g)
    ensures forall x | x in fs.links :: fs.links[x] in g.devs
  {
    hide Toward, ManagedTargets, ManagedDevs, CanonTpg, CanonLun, CanonHba, ParseHba, Ours, PoolDone;
    forall x | x in fs.links ensures fs.links[x] in g.devs {
      assert x.lun in fs.luns && x.lun.tpg in g.tpgs;
      WantedLunsOnly(fs, g, x.lun);
      LinkIsWanted(fs, g, x);
    }
  }

  lemma WantedLunsOnly(fs: Fs, g: Goal, l: LunPath)
    requires Trim(fs, g) && l in fs.luns && l.tpg in g.tpgs
    ensures l in g.luns
  {
    assert PoolDone(fs, g, l.tpg);
  }

  lemma LinkIsWanted(fs: Fs, g: Goal, x: LinkPath)
    requires g.Wf() && ManagedLuns(fs, g) && x in fs.links && x.lun in g.luns
    ensures fs.links[x] in g.devs
  {
    hide CanonTpg, CanonLun, CanonHba, ParseHba, Ours;
  }

  lemma UnwantedDirectory(fs: Fs, g: Goal, d: DevPath)
    requires Managed(fs, g) && ListedDev(fs, d) && d !in g.devs
    ensures CanonHba(d.hba)
    ensures forall o | o in g.devs :: o.hba != d.hba
  {
  }

  /** No backstore of an unwanted directory is wanted, and no link leads into it. */
  lemma DeadBackstoreLegal(start: Fs, fs: Fs, g: Goal, d: DevPath)
    requires Progress(start, fs, g) && Trim(fs, g)
    requires ListedDev(start, d) && d !in g.devs
    ensures CanonHba(d.hba)
    ensures forall o | o in g.devs :: o.hba != d.hba
    ensures forall x | x in fs.links :: fs.links[x].hba != d.hba
  {
    LinksWanted(start, fs, g);
    UnwantedDirectory(start, g, d);
  }

  lemma AfterDeadBackstore(start: Fs, a: Fs, b: Fs, g: Goal, hba: string)
    requires Progress(start, a, g) && Trim(a, g) && AllGood(a, g) && b.Wf()
    requires HbaCut(a, b, hba) && ParseHba(hba).Hba? && forall d | d in g.devs :: d.hba != hba
    ensures Progress(start, b, g) && Trim(b, g) && AllGood(b, g)
  {
    DeadBackstoreStep(a, b, g, hba);
    Advance(start, a, b, g);
    StaysTrim(a, b, g);
  }

  method CollectOne(
      k: Kernel, b: Backstore, ghost d: DevPath, ghost listed: Fs, ghost g: Goal, ghost good: bool) returns (e: Err)
    requires k.fs.Wf()
    requires good ==> Progress(listed, k.fs, g) && Trim(k.fs, g) && AllGood(k.fs, g)
    requires ListedDev(listed, d) && b == BackstoreAt(d) && (good ==> d !in g.devs)
    modifies k
    ensures k.fs.Wf() && k.fs == old(k.fs).(hbas := k.fs.hbas, devs := k.fs.devs)
    ensures old(k.fs.tpgs.Keys) <= k.fs.tpgs.Keys
    ensures good ==> Progress(listed, k.fs, g) && Trim(k.fs, g) && AllGood(k.fs, g)
    ensures k.fs.devs.Keys <= old(k.fs.devs.Keys) && k.fs.hbas <= old(k.fs.hbas)
    ensures good ==> e in {Ok, Fault}
    ensures good && e == Ok ==> d !in k.fs.devs
    ensures e in {Ok, Busy, Fault}
    ensures e == Busy ==> exists x :: x in k.fs.links && k.fs.links[x].hba == DevOf(b).hba
    ensures !k.flaky ==> e != Fault
  {
    hide Progress, Managed, Toward, Trim, AllGood, HbaName;
    ghost var before := k.fs;
    if good {
      ProgressFacts(listed, before, g);
      DeadBackstoreLegal(listed, before, g, d);
    }
    e := Lio.DeleteBackstore(k, b);
    if good { AfterDeadBackstore(listed, before, k.fs, g, d.hba); }
  }

  /** The test of the loop tells the wanted backstores of the tree `listed` from the others. */
  ghost predicate Tells(backstores: seq<Backstore>, listed: Fs, g: Goal) {
    forall d | ListedDev(listed, d) ::
      DevOf(BackstoreAt(d)) == d && (Contains(backstores, BackstoreAt(d)) <==> d in g.devs)
  }

  /** A link leads into the directory of a listed device that the test does not find. */
  ghost predicate Stuck(listed: Fs, fs: Fs, backstores: seq<Backstore>) {
    exists d, x :: ListedDev(listed, d) && !Contains(backstores, BackstoreAt(d)) &&
      x in fs.links && fs.links[x].hba == DevOf(BackstoreAt(d)).hba
  }

  lemma VolumesAreFound(s: State, backstores: seq<Backstore>, d: DevPath)
    requires AllListed(s, backstores, {}) && d in Devices(s)
    ensures ParseHba(d.hba).Hba? && Contains(backstores, BackstoreAt(d))
  {
    hide ParseHba, DeviceOf;
    var p, v :| p in s.pools && v in s.pools[p].volumes && d == DeviceOf(s.pools[p].volumes[v]);
    assert ListsVolumes(backstores, s.pools[p], {});
    DeviceSaysWhich(s.pools[p].volumes[v]);
  }

  lemma ClingsFromTheStart(start: Fs, listed: Fs, fs: Fs, s: State, backstores: seq<Backstore>, ids: set<u16>)
    requires AddsNames(start, listed, Devices(s), ids) && AllListed(s, backstores, {}) && Stuck(listed, fs, backstores)
    ensures Clinging(start, fs, s)
  {
    hide DevOf, ParseHba, Contains, AllListed, Devices, BackstoreAt;
    var d, x :| ListedDev(listed, d) && !Contains(backstores, BackstoreAt(d)) &&
      x in fs.links && fs.links[x].hba == DevOf(BackstoreAt(d)).hba;
    if d in Devices(s) { VolumesAreFound(s, backstores, d); }
  }

  method CollectBackstores(
      k: Kernel, existing: seq<Backstore>, backstores: seq<Backstore>, ghost listed: Fs, ghost g: Goal,
      ghost good: bool)
    returns (e: Err)
    requires k.fs.Wf()
    requires good ==> Progress(listed, listed, g) && Trim(listed, g) && AllGood(listed, g)
    requires good ==> Tells(backstores, listed, g)
    requires k.fs == listed && forall b | b in existing :: BackstoreListed(listed, b)
    requires good ==> forall d | ListedDev(listed, d) :: BackstoreAt(d) in existing
    modifies k
    ensures k.fs.Wf() && k.fs == old(k.fs).(hbas := k.fs.hbas, devs := k.fs.devs)
    ensures old(k.fs.tpgs.Keys) <= k.fs.tpgs.Keys
    ensures good ==> Progress(listed, k.fs, g) && Trim(k.fs, g) && AllGood(k.fs, g)
    ensures good ==> e in {Ok, Fault}
    ensures good && e == Ok ==> forall d | ListedDev(k.fs, d) :: d in g.devs
    ensures e in {Ok, Busy, Fault} && (e == Busy ==> Stuck(listed, k.fs, backstores))
    ensures k.fs.hbas <= listed.hbas && k.fs.devs.Keys <= listed.devs.Keys
    ensures !k.flaky ==> e != Fault
  {
    hide Progress, Trim, AllGood, ParseHba, Contains, HbaName;
    for i := 0 to |existing|
      invariant old(k.fs.tpgs.Keys) <= k.fs.tpgs.Keys
      invariant good ==> Progress(listed, k.fs, g) && Trim(k.fs, g) && AllGood(k.fs, g)
      invariant k.fs.Wf() && k.fs.devs.Keys <= listed.devs.Keys && k.fs.hbas <= listed.hbas
      invariant k.fs == listed.(hbas := k.fs.hbas, devs := k.fs.devs)
      invariant good ==> forall d | ListedDev(listed, d) && d !in g.devs && BackstoreAt(d) in existing[..i] ::
                d !in k.fs.devs
    {
      var b := existing[i];
      assert existing[..i + 1] == existing[..i] + [b];
      assert BackstoreListed(listed, b);
      ghost var d :| ListedDev(listed, d) && b == BackstoreAt(d);
      assert good ==> DevOf(b) == d;
      if Contains(backstores, b) { continue; }
      e := CollectOne(k, b, d, listed, g, good);
      if e != Ok { return e; }
    }
    assert existing[..|existing|] == existing;
    e := Ok;
  }

  /** Every wanted device and LUN is some volume's. */
  ghost predicate FromVolumes(c: ServerConfig, s: State, g: Goal) {
    && (forall d | d in g.devs :: exists k :: k in VolKeys(s) && DeviceOf(VolOf(s, k)) == d)
    && (forall l | l in g.luns :: exists k :: k in VolKeys(s) && VolLun(c, s, k) == l)
  }

  lemma ListedCanon(start: Fs, fs: Fs, g: Goal, d: DevPath)
    requires Progress(start, fs, g) && ListedDev(fs, d)
    ensures DevOf(BackstoreAt(d)) == d
  {
    hide Toward;
    assert CanonHba(d.hba);
  }

  lemma WantedIsContained(fs: Fs, c: ServerConfig, s: State, backstores: seq<Backstore>, g: Goal, d: DevPath)
    requires AllExported(fs, c, s, backstores, {}, g) && FromVolumes(c, s, g) && d in g.devs && ParseHba(d.hba).Hba?
    ensures Contains(backstores, BackstoreAt(d))
  {
    hide PoolExported, VolLun, VolKeys, DeviceOf;
    var k :| k in VolKeys(s) && DeviceOf(VolOf(s, k)) == d;
    VolumeIsListed(fs, c, s, backstores, g, k);
    DeviceSaysWhich(VolOf(s, k));
  }

  lemma VolumeIsListed(fs: Fs, c: ServerConfig, s: State, backstores: seq<Backstore>, g: Goal, k: VolKey)
    requires AllExported(fs, c, s, backstores, {}, g) && k in VolKeys(s)
    ensures exists b :: b in backstores && b.kind == FILEIO && b.id == VolOf(s, k).id && b.name == VolOf(s, k).name
  {
    hide PoolExported;
    assert ListsVolumes(backstores, s.pools[k.pool], {});
  }

  lemma DeviceSaysWhich(volume: StateVolume)
    ensures DeviceOf(volume).name == volume.name && ParseHba(DeviceOf(volume).hba) == Hba(FILEIO, volume.id)
  {
  }

  lemma ContainedIsWanted(backstores: seq<Backstore>, g: Goal, d: DevPath)
    requires OnlyWanted(backstores, g) && ParseHba(d.hba).Hba? && DevOf(BackstoreAt(d)) == d
    requires Contains(backstores, BackstoreAt(d))
    ensures d in g.devs
  {
    hide ParseHba;
    var o :| o in backstores && o.id == BackstoreAt(d).id && o.kind == BackstoreAt(d).kind && o.name == d.name;
    assert DevOf(o) == d;
  }

  lemma TestTells(start: Fs, fs: Fs, c: ServerConfig, s: State, backstores: seq<Backstore>, g: Goal)
    requires Progress(start, fs, g) && AllExported(fs, c, s, backstores, {}, g) && OnlyWanted(backstores, g)
    requires FromVolumes(c, s, g)
    ensures Tells(backstores, fs, g)
  {
    hide Progress, AllExported, OnlyWanted, FromVolumes, Contains, DevOf, ParseHba, BackstoreAt;
    forall d | ListedDev(fs, d)
      ensures DevOf(BackstoreAt(d)) == d && (Contains(backstores, BackstoreAt(d)) <==> d in g.devs)
    {
      ListedCanon(start, fs, g, d);
      if d in g.devs { WantedIsContained(fs, c, s, backstores, g, d); }
      if Contains(backstores, BackstoreAt(d)) { ContainedIsWanted(backstores, g, d); }
    }
  }

  lemma VolumeExported(fs: Fs, c: ServerConfig, s: State, backstores: seq<Backstore>, g: Goal, k: VolKey)
    requires AllExported(fs, c, s, backstores, {}, g) && k in VolKeys(s)
    ensures VolumeDone(fs, c, s.pools[k.pool], VolOf(s, k), g)
  {
    hide VolumeDone, ListsVolumes;
    assert PoolExported(fs, c, s.pools[k.pool], {}, g);
  }

  lemma VolumeExportedParts(fs: Fs, c: ServerConfig, s: State, backstores: seq<Backstore>, g: Goal, k: VolKey)
    requires AllExported(fs, c, s, backstores, {}, g) && k in VolKeys(s)
    requires AsksVolume(c, s.pools[k.pool], VolOf(s, k), g)
    ensures var d, l := DeviceOf(VolOf(s, k)), VolLun(c, s, k);
      && d in g.devs && DevGood(fs, g, d) && SerialOf(fs, d) != ""
      && l in g.luns && l in fs.luns && LinkPath(l, g.luns[l].name) in fs.links
  {
    hide DevGood, AllExported, TargetOf, TpgOf, HbaName, LunName, VolKeys;
    VolumeExported(fs, c, s, backstores, g, k);
  }

  ghost predicate AsksAll(c: ServerConfig, s: State, g: Goal) {
    forall k | k in VolKeys(s) :: AsksVolume(c, s.pools[k.pool], VolOf(s, k), g)
  }

  lemma ExportedIsGood(fs: Fs, c: ServerConfig, s: State, backstores: seq<Backstore>, g: Goal)
    requires AllExported(fs, c, s, backstores, {}, g) && FromVolumes(c, s, g)
    requires AsksAll(c, s, g)
    ensures AllGood(fs, g)
    ensures forall l | l in g.luns :: l in fs.luns && LinkPath(l, g.luns[l].name) in fs.links
  {
    hide DevGood, AllExported, VolKeys, AsksVolume, VolLun, DeviceOf, VolOf;
    forall d | d in g.devs ensures DevGood(fs, g, d) && SerialOf(fs, d) != "" {
      var k :| k in VolKeys(s) && DeviceOf(VolOf(s, k)) == d;
      VolumeExportedParts(fs, c, s, backstores, g, k);
    }
    forall l | l in g.luns ensures l in fs.luns && LinkPath(l, g.luns[l].name) in fs.links {
      var k :| k in VolKeys(s) && VolLun(c, s, k) == l;
      VolumeExportedParts(fs, c, s, backstores, g, k);
    }
  }

  // The whole loop.

  lemma TpgInPlace(fs: Fs, g: Goal, p: TpgPath)
    requires Trim(fs, g)
    ensures !Off(fs, g, TpgItem(p))
  {
    hide Ours;
    if p in g.tpgs { assert PoolDone(fs, g, p); }
  }

  lemma PortalInPlace(fs: Fs, g: Goal, x: PortalPath)
    requires fs.Wf() && Trim(fs, g)
    ensures !Off(fs, g, PortalItem(x))
  {
    hide Ours;
    if x.tpg in g.tpgs {
      assert PoolDone(fs, g, x.tpg);
      assert PortalPath(x.tpg, x.portal) == x;
    }
  }

  lemma LunInPlace(fs: Fs, g: Goal, l: LunPath)
    requires fs.Wf() && Trim(fs, g) && (l in g.luns ==> l in fs.luns)
    ensures !Off(fs, g, LunItem(l))
  {
    hide Ours, PoolDone;
    if l in fs.luns && l.tpg in g.tpgs { WantedLunsOnly(fs, g, l); }
  }

  lemma LinkInPlace(fs: Fs, g: Goal, x: LinkPath)
    requires fs.Wf() && Trim(fs, g) && ManagedLuns(fs, g)
    requires x.lun in g.luns ==> LinkPath(x.lun, g.luns[x.lun].name) in fs.links
    ensures !Off(fs, g, LinkItem(x))
  {
    hide Ours, PoolDone, CanonLun;
    if x in fs.links && x.lun.tpg in g.tpgs { WantedLunsOnly(fs, g, x.lun); }
    if x.lun in g.luns { assert LinkPath(x.lun, x.name) == x; }
  }

  lemma DevInPlace(fs: Fs, g: Goal, d: DevPath)
    requires AllGood(fs, g) && forall d | ListedDev(fs, d) :: d in g.devs
    ensures !Off(fs, g, DevItem(d))
  {
    hide DevGood, ParseHba;
  }

  /** At the end of the last phase nothing is off. */
  lemma EverythingInPlace(start: Fs, fs: Fs, g: Goal)
    requires Progress(start, fs, g) && Trim(fs, g) && AllGood(fs, g)
    requires forall l | l in g.luns :: l in fs.luns && LinkPath(l, g.luns[l].name) in fs.links
    requires forall d | ListedDev(fs, d) :: d in g.devs
    ensures Converged(fs, g)
  {
    hide Progress, Trim, AllGood, Off, Converged, ManagedLuns, ManagedTargets, ManagedDevs, Goal.Wf,
      Goal.Visible, Fs.Wf, ListedDev;
    ProgressFacts(start, fs, g);
    forall i ensures !Off(fs, g, i) {
      match i
      case TpgItem(p) => TpgInPlace(fs, g, p);
      case PortalItem(x) => PortalInPlace(fs, g, x);
      case LunItem(l) => LunInPlace(fs, g, l);
      case LinkItem(x) => LinkInPlace(fs, g, x);
      case DevItem(d) => DevInPlace(fs, g, d);
    }
    WfIsVisible(g);
    ConvergedIffNothingOff(fs, g);
  }

  lemma GoalAsksPool(c: ServerConfig, s: State, p: u16)
    requires WellFormed(c, s) && p in s.pools
    ensures AsksPool(c, s.pools[p], GoalOf(c, s))
  {
    var t := TargetOf(c, s.pools[p]);
    var luns := WantLuns(c, s);
    assert PoolTpg(c, s, p) in WantTpgs(c, s);
    forall v: u16 ensures v in s.pools[p].volumes <==> LunOf(t, v) in luns {
      if v in s.pools[p].volumes {
        assert VolKey(p, v) in VolKeys(s) && VolLun(c, s, VolKey(p, v)) == LunOf(t, v);
      }
      if LunOf(t, v) in luns {
        var j :| j in VolKeys(s) && LunOf(t, v) == VolLun(c, s, j);
        assert ParseLun(LunName(v)) == Num(j.vol) && ParseTpg(TpgName(p)) == Num(j.pool);
      }
    }
  }

  lemma GoalAsksVolume(c: ServerConfig, s: State, k: VolKey)
    requires WellFormed(c, s) && k in VolKeys(s)
    ensures AsksVolume(c, s.pools[k.pool], VolOf(s, k), GoalOf(c, s))
  {
    hide NamesApart, IdsApart, FilesApart, VolKeys, TpgOf, TargetOf, HbaName, ImagePath;
    assert VolLun(c, s, k) in WantLuns(c, s);
    assert VolDev(s, k) == DeviceOf(VolOf(s, k)) && VolDev(s, k) in WantDevs(c, s);
    assert VolFile(c, s, k) in WantFloors(c, s);
  }

  lemma GoalAsksAll(c: ServerConfig, s: State)
    requires WellFormed(c, s)
    ensures AsksAll(c, s, GoalOf(c, s))
  {
    hide AsksVolume, WellFormed, GoalOf;
    forall k | k in VolKeys(s) ensures AsksVolume(c, s.pools[k.pool], VolOf(s, k), GoalOf(c, s)) {
      GoalAsksVolume(c, s, k);
    }
  }

  lemma GoalAsksVolumes(c: ServerConfig, s: State, p: u16)
    requires WellFormed(c, s) && p in s.pools
    ensures AsksVolumes(c, s.pools[p], GoalOf(c, s))
  {
    hide AsksVolume, WellFormed, GoalOf, HbaName;
    var pool := s.pools[p];
    forall v | v in pool.volumes ensures AsksVolume(c, pool, pool.volumes[v], GoalOf(c, s)) {
      assert VolOf(s, VolKey(p, v)) == pool.volumes[v];
      GoalAsksVolume(c, s, VolKey(p, v));
    }
    forall u, v | u in pool.volumes && v in pool.volumes && DeviceOf(pool.volumes[u]) == DeviceOf(pool.volumes[v])
      ensures u == v
    {
      SameDevice(c, s, VolKey(p, u), VolKey(p, v));
    }
  }

  lemma SameDevice(c: ServerConfig, s: State, j: VolKey, k: VolKey)
    requires WellFormed(c, s) && j in VolKeys(s) && k in VolKeys(s) && DeviceOf(VolOf(s, j)) == DeviceOf(VolOf(s, k))
    ensures j == k
  {
    DevApart(s, j, k);
  }

  lemma GoalDevicesApart(c: ServerConfig, s: State)
    requires WellFormed(c, s)
    ensures DevicesApart(s)
  {
    hide WellFormed, DeviceOf;
    forall p, q | p in s.pools && q in s.pools && p != q ensures DevicesOf(s.pools[p]) !! DevicesOf(s.pools[q]) {
      forall d | d in DevicesOf(s.pools[p]) && d in DevicesOf(s.pools[q]) ensures false {
        var u :| u in s.pools[p].volumes && d == DeviceOf(s.pools[p].volumes[u]);
        var v :| v in s.pools[q].volumes && d == DeviceOf(s.pools[q].volumes[v]);
        assert VolOf(s, VolKey(p, u)) == s.pools[p].volumes[u] && VolOf(s, VolKey(q, v)) == s.pools[q].volumes[v];
        SameDevice(c, s, VolKey(p, u), VolKey(q, v));
      }
    }
  }

  lemma GoalFromVolumes(c: ServerConfig, s: State)
    requires WellFormed(c, s)
    ensures FromVolumes(c, s, GoalOf(c, s))
  {
    hide NamesApart, FilesApart, VolKeys, VolLun, HbaName, VolFile;
    forall d | d in WantDevs(c, s) ensures exists k :: k in VolKeys(s) && DeviceOf(VolOf(s, k)) == d {
      var k := DevKey(s, d);
      assert DeviceOf(VolOf(s, k)) == d;
    }
    forall l | l in WantLuns(c, s) ensures exists k :: k in VolKeys(s) && VolLun(c, s, k) == l {
      assert VolLun(c, s, LunKey(c, s, l)) == l;
    }
  }

  lemma PoolsTrim(fs: Fs, c: ServerConfig, s: State)
    requires WellFormed(c, s) && NoDeadTargets(fs, GoalOf(c, s))
    requires forall p | p in s.pools :: PoolDone(fs, GoalOf(c, s), TpgOf(TargetOf(c, s.pools[p])))
    ensures Trim(fs, GoalOf(c, s))
  {
    hide PoolDone, WellFormed, TpgOf, TargetOf, NoDeadTargets;
    var g := GoalOf(c, s);
    forall t | t in g.tpgs ensures PoolDone(fs, g, t) {
      var p :| p in s.pools && t == PoolTpg(c, s, p);
    }
  }

  method CollectUnwanted(
      k: Kernel, c: ServerConfig, s: State, backstores: seq<Backstore>, ghost start: Fs, ghost g: Goal,
      ghost good: bool)
    returns (e: Err)
    requires k.fs.Wf()
    requires good ==> Progress(start, k.fs, g) && Trim(k.fs, g) && AllExported(k.fs, c, s, backstores, {}, g)
    requires good ==> OnlyWanted(backstores, g) && FromVolumes(c, s, g)
    requires good ==> AsksAll(c, s, g)
    modifies k
    ensures k.fs.Wf() && Spares(old(k.fs), k.fs, c.baseIqn, {})
    ensures old(k.fs.tpgs.Keys) <= k.fs.tpgs.Keys
    ensures k.fs == old(k.fs).(hbas := k.fs.hbas, devs := k.fs.devs)
    ensures good ==> Progress(start, k.fs, g)
    ensures good ==> e in {Ok, Fault}
    ensures good && e == Ok ==> Converged(k.fs, g) && AllGood(k.fs, g)
    ensures AddsNames(old(k.fs), k.fs, {}, {})
    ensures e in {Ok, Syntax, Busy, Fault}
    ensures e == Syntax ==> Illegible(old(k.fs), c.baseIqn)
    ensures e == Busy ==> Stuck(old(k.fs), k.fs, backstores)
    ensures !k.flaky ==> e != Fault
  {
    hide *;
    ghost var listed := k.fs;
    SparesRefl(listed, c.baseIqn, {});
    if good {
      ProgressFacts(start, listed, g);
      NoProgressFrom(start, listed, g);
      ExportedIsGood(listed, c, s, backstores, g);
      TestTells(start, listed, c, s, backstores, g);
      HbasLegible(listed, g);
    }
    CollectingAdds(listed, listed);
    if BadHbas(listed) { BadHbasIllegible(listed, c.baseIqn); }
    var existing;
    e, existing := Lio.ListBackstores(k);
    if e != Ok { return e; }
    if good { ListedOnce(listed, g, existing); }
    e := CollectBackstores(k, existing, backstores, listed, g, good);
    StorageSpares(listed, k.fs, c.baseIqn);
    CollectingAdds(listed, k.fs);
    if good { Chain(start, listed, k.fs, g); }
    if e != Ok { return e; }
    if good {
      LunsStay(listed, k.fs, g);
      EverythingInPlace(start, k.fs, g);
    }
  }

  lemma CollectingAdds(a: Fs, b: Fs)
    requires b == a.(hbas := b.hbas, devs := b.devs) && b.hbas <= a.hbas && b.devs.Keys <= a.devs.Keys
    ensures AddsNames(a, b, {}, {})
  {
  }

  lemma BadHbasIllegible(fs: Fs, base: string)
    requires BadHbas(fs)
    ensures Illegible(fs, base)
  {
    hide BadHbas;
  }

  lemma LunsStay(a: Fs, b: Fs, g: Goal)
    requires Progress(a, b, g) && forall l | l in g.luns :: l in a.luns && LinkPath(l, g.luns[l].name) in a.links
    ensures forall l | l in g.luns :: l in b.luns && LinkPath(l, g.luns[l].name) in b.links
  {
  }

  lemma HbasLegible(fs: Fs, g: Goal)
    requires Managed(fs, g)
    ensures forall h | h in fs.hbas :: !ParseHba(h).BadHba?
  {
  }

  /** With one data directory to a backstore, the listing has them all. */
  lemma ListedOnce(fs: Fs, g: Goal, existing: seq<Backstore>)
    requires Managed(fs, g) && forall d | ListedDev(fs, d) :: Covered(fs, existing, d.hba)
    ensures forall d | ListedDev(fs, d) :: BackstoreAt(d) in existing
  {
    forall d | ListedDev(fs, d) ensures BackstoreAt(d) in existing {
      assert Covered(fs, existing, d.hba);
      var o :| ListedDev(fs, o) && o.hba == d.hba && BackstoreAt(o) in existing;
      assert o == d;
    }
  }

  /** The registry does not contradict itself, and the kernel is one that a reconcile can bring to it. */
  ghost predicate Repairable(c: ServerConfig, fs: Fs, s: State) {
    WellFormed(c, s) && Managed(fs, GoalOf(c, s))
  }

  /** The goal of a well-formed registry, and an empty one for any other. */
  ghost function Aim(c: ServerConfig, s: State): Goal {
    if WellFormed(c, s) then GoalOf(c, s) else Goal(c.baseIqn, c.portal, {}, map[], map[], map[])
  }

  /** What the phases need to know of the goal. */
  lemma AimFacts(c: ServerConfig, fs: Fs, s: State)
    requires Repairable(c, fs, s)
    ensures Aim(c, s) == GoalOf(c, s) && Aim(c, s).Wf() && Managed(fs, Aim(c, s))
    ensures forall p | p in s.pools :: AsksPool(c, s.pools[p], Aim(c, s)) && AsksVolumes(c, s.pools[p], Aim(c, s))
    ensures AsksAll(c, s, Aim(c, s)) && DevicesApart(s) && FromVolumes(c, s, Aim(c, s))
  {
    hide WellFormed, GoalOf, Managed, AsksPool, AsksVolumes, AsksAll, DevicesApart, FromVolumes, Goal.Wf;
    GoalIsWf(c, s);
    forall p | p in s.pools ensures AsksPool(c, s.pools[p], GoalOf(c, s)) && AsksVolumes(c, s.pools[p], GoalOf(c, s)) {
      GoalAsksPool(c, s, p);
      GoalAsksVolumes(c, s, p);
    }
    GoalAsksAll(c, s);
    GoalDevicesApart(c, s);
    GoalFromVolumes(c, s);
  }

  /** Every wanted device has the serial it had, or else its name. */
  ghost predicate SerialsSet(a: Fs, b: Fs, g: Goal) {
    forall d | d in g.devs :: SerialSet(a, b, d)
  }

  lemma GoodSerials(a: Fs, b: Fs, g: Goal)
    requires Progress(a, b, g) && AllGood(b, g)
    ensures SerialsSet(a, b, g)
  {
    hide Toward, Managed, Goal.Wf, DevSet;
    SerialsKept(a, b, g);
  }

  /** For a registry and a kernel that fit, only progress is made, no removal is refused, and
      success means converged; and as long as the kernel answers every call, it is a success.
      For any others the calls are made all the same: what stands under a registered id stays,
      and what has to go beside it stops the reconcile. */
  method ReconcileAll(k: Kernel, c: ServerConfig, s: State) returns (e: Err)
    requires k.fs.Wf()
    modifies k
    ensures k.fs.Wf()
    ensures Repairable(c, old(k.fs), s) ==>
        && Progress(old(k.fs), k.fs, GoalOf(c, s))
        && e in {Ok, Fault}
        && (e == Ok ==> Converged(k.fs, GoalOf(c, s)) && SerialsSet(old(k.fs), k.fs, GoalOf(c, s)))
    ensures !k.flaky ==> e != Fault
    ensures !k.flaky && Repairable(c, old(k.fs), s) ==> e == Ok
    ensures KeepsLive(old(k.fs), k.fs, s.pools)
    ensures e == Ok ==> !DeadBesideLive(old(k.fs), c.baseIqn, s.pools)
    ensures Spares(old(k.fs), k.fs, c.baseIqn, VolumeFiles(c, s))
    ensures e == Ok ==> AllServed(k.fs, c, s) && OnlyLive(k.fs, c.baseIqn, s)
    ensures Obstacle(old(k.fs), k.fs, c, s, e)
  {
    hide *;
    ghost var g, good := Aim(c, s), Repairable(c, k.fs, s);
    ghost var start := k.fs;
    if good {
      AimFacts(c, start, s);
      NoProgressYet(start, g);
      ProgressFacts(start, start, g);
    }
    e := Lio.SetupLIO(k);
    ghost var f1 := k.fs;
    if good {
      RootStep(start, f1, g);
      Advance(start, start, f1, g);
      ProgressFacts(start, f1, g);
      RepairableParts(c, start, s);
    }
    LiveInSteps(start, f1, f1, f1, c.baseIqn, s.pools);
    ghost var base, files := c.baseIqn, VolumeFiles(c, s);
    RootSpares(start, f1, base, files);
    ghost var devs, ids := Devices(s), PoolIds(s);
    RootObstacle(start, f1, c, s, devs, ids);
    if e != Ok { return e; }
    e := DeleteDeadTargets(k, c, s, g, good);
    ghost var f2 := k.fs;
    if good { Chain(start, f1, f2, g); }
    LiveInSteps(start, f1, f2, f2, c.baseIqn, s.pools);
    SparesTrans(start, f1, f2, base, {}, files);
    AddsTrans(start, f1, f2, devs, ids, {}, {});
    if e == Syntax { WasIllegible(start, f1, base, devs, ids); }
    ObstacleBy(start, k.fs, c, s, e);
    if e != Ok { return e; }
    e := ReconcilePools(k, c, s, start, g, good);
    ghost var f3 := k.fs;
    LiveInSteps(start, f1, f2, f3, c.baseIqn, s.pools);
    SparesTrans(start, f2, f3, base, {}, files);
    AddsTrans(start, f2, f3, devs, ids, {}, ids);
    if e == Syntax { WasIllegible(start, f2, base, devs, ids); }
    ObstacleBy(start, k.fs, c, s, e);
    if e != Ok { return e; }
    StaysLive(f2, f3, base, s, {});
    if good { PoolsTrim(k.fs, c, s); }
    var backstores;
    e, backstores := ExportAll(k, c, s, start, g, good);
    ghost var f4 := k.fs;
    LiveInSteps(start, f1, f2, f4, c.baseIqn, s.pools);
    SparesTrans(start, f3, f4, base, files, files);
    AddsTrans(start, f3, f4, devs, ids, devs, ids);
    ObstacleBy(start, k.fs, c, s, e);
    if e != Ok { return e; }
    StaysLive(f3, f4, base, s, devs);
    e := CollectUnwanted(k, c, s, backstores, start, g, good);
    if good && e == Ok { GoodSerials(start, k.fs, g); }
    SparesTrans(start, f4, k.fs, base, {}, files);
    if e == Syntax { WasIllegible(start, f4, base, devs, ids); }
    if e == Busy { ClingsFromTheStart(start, f4, k.fs, s, backstores, ids); }
    ObstacleBy(start, k.fs, c, s, e);
    if e == Ok {
      ServedInSteps(f3, f4, k.fs, c, s);
      AddsNothing(f4, {}, ids);
      AddsTrans(f4, f4, k.fs, {}, ids, {}, {});
      StaysLive(f4, k.fs, base, s, {});
    }
    LiveInSteps(start, f1, f2, k.fs, c.baseIqn, s.pools);
  }

  lemma RootObstacle(a: Fs, b: Fs, c: ServerConfig, s: State, devs: set<DevPath>, ids: set<u16>)
    requires b == a || b == a.(root := true)
    ensures AddsNames(a, b, devs, ids) && Obstacle(a, b, c, s, Fault)
    ensures CrowdedTarget(b, c.baseIqn, s.pools) ==> CrowdedTarget(a, c.baseIqn, s.pools)
  {
    hide ParseTpg, Ours, PoolNameOf, CanonLun, TpgOf;
    if CrowdedTarget(b, c.baseIqn, s.pools) {
      var t :| TargetListed(b, c.baseIqn, t) && t.id !in s.pools && Crowded(b, TpgOf(t));
      assert TargetListed(a, c.baseIqn, t);
    }
  }

  lemma ObstacleBy(a: Fs, b: Fs, c: ServerConfig, s: State, e: Err)
    requires e in {Ok, Fault, Syntax, Busy, NilDereference}
    requires e == Syntax ==> Illegible(a, c.baseIqn)
    requires e == Busy ==> CrowdedTarget(a, c.baseIqn, s.pools) || Clinging(a, b, s)
    requires e == NilDereference ==> !VolumesNamed(s)
    ensures Obstacle(a, b, c, s, e)
  {
    hide Illegible, CrowdedTarget, Clinging, VolumesNamed;
  }

  lemma ServedInSteps(a: Fs, b: Fs, d: Fs, c: ServerConfig, s: State)
    requires forall p | p in s.pools :: Served(a, TpgOf(TargetOf(c, s.pools[p])), c.portal)
    requires KeepsServed(a, b, c.portal) && d == b.(hbas := d.hbas, devs := d.devs)
    requires forall p, v | p in s.pools && v in s.pools[p].volumes :: Linked(b, c, s.pools[p], s.pools[p].volumes[v])
    ensures AllServed(d, c, s)
  {
    hide TpgOf, TargetOf, LinkOf;
    StaysServed(a, b, c.portal);
  }

  lemma RootSpares(a: Fs, b: Fs, base: string, files: set<string>)
    requires b == a || b == a.(root := true)
    ensures Spares(a, b, base, files)
  {
    hide Ours;
  }

  /** After the first phase targets are only added. */
  lemma LiveInSteps(a: Fs, b: Fs, c: Fs, d: Fs, base: string, pools: map<u16, StatePool>)
    requires (b == a || b == a.(root := true)) && (KeepsLive(b, c, pools) || c == b) && c.tpgs.Keys <= d.tpgs.Keys
    ensures KeepsLive(a, d, pools)
    ensures DeadBesideLive(a, base, pools) <==> DeadBesideLive(b, base, pools)
  {
    hide Live, Ours, ParseTpg;
    if DeadBesideLive(a, base, pools) {
      var p, q :| Listed(a, base, p) && q in a.tpgs && !Live(p, pools) && q.iqn == p.iqn && Live(q, pools);
      assert Listed(b, base, p) && q in b.tpgs;
    }
    if DeadBesideLive(b, base, pools) {
      var p, q :| Listed(b, base, p) && q in b.tpgs && !Live(p, pools) && q.iqn == p.iqn && Live(q, pools);
      assert Listed(a, base, p) && q in a.tpgs;
    }
  }

  lemma RepairableParts(c: ServerConfig, fs: Fs, s: State)
    ensures Repairable(c, fs, s) <==> WellFormed(c, s) && Managed(fs, GoalOf(c, s))
  {
    hide WellFormed, Managed, GoalOf;
  }
}
