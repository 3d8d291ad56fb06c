/** The theory of reconciliation.  A goal is the tree the registry asks for; `View` is the part
    of the kernel tree the server can see; a kernel is managed when a reconcile can bring its
    view to the goal, and `Toward` is what every step of a reconcile may do on the way. */
module Convergence {
  import opened Types
  import opened Names
  import opened KernelTree
  import opened Frames

  /** `luns` maps a LUN to the backstore it exports, `devs` a backstore to its disk file and
      `floors` a disk file to the size it must at least have. */
  datatype Goal = Goal(
    base: string, portal: string, tpgs: set<TpgPath>, luns: map<LunPath, DevPath>,
    devs: map<DevPath, string>, floors: map<string, int>)
  {
    ghost predicate Wf() {
      && (forall p | p in tpgs :: Ours(base, p.iqn) && CanonTpg(p.tpg))
      && (forall p, q | p in tpgs && q in tpgs && (p.iqn == q.iqn || p.tpg == q.tpg) :: p == q)
      && (forall l | l in luns :: l.tpg in tpgs && CanonLun(l.lun) && luns[l] in devs)
      && (forall d | d in devs :: CanonHba(d.hba) && ParseHba(d.hba).kind == FILEIO && d.name != "")
      && floors.Keys == (set d | d in devs :: devs[d])
      && (forall f | f in floors :: floors[f] > 0)
      && (forall c, d | c in devs && d in devs && (c.hba == d.hba || devs[c] == devs[d]) :: c == d)
    }

    /** What the parts of the goal need of each other. */
    ghost predicate Closed() {
      && (forall l | l in luns :: l.tpg in tpgs)
      && (forall d | d in devs :: devs[d] in floors)
    }

    /** Everything wanted can be seen. */
    ghost predicate Visible() {
      && (forall p | p in tpgs :: Ours(base, p.iqn))
      && (forall l | l in luns :: Ours(base, l.tpg.iqn))
      && (forall d | d in devs :: ParseHba(d.hba).Hba?)
    }

    function Floor(f: string): int {
      if f in floors then floors[f] else 0
    }

    predicate WantsPortal(x: PortalPath) {
      x.tpg in tpgs && x.portal == portal
    }

    predicate WantsLink(x: LinkPath, d: DevPath) {
      x.lun in luns && luns[x.lun] == d && x.name == d.name
    }
  }

  lemma WfIsVisible(g: Goal)
    requires g.Wf()
    ensures g.Visible() && g.Closed()
  {
  }

  // What the server can see, and what it should see.

  datatype DevView = DevView(file: string, size: int, writeCache: bool, enabled: bool)

  datatype View = View(
    tpgs: map<TpgPath, TpgAttrs>, portals: set<PortalPath>, luns: set<LunPath>,
    links: map<LinkPath, DevPath>, devs: map<DevPath, DevView>)

  predicate Listable(d: DevPath) {
    ParseHba(d.hba).Hba?
  }

  ghost function SeenTpgs(fs: Fs, base: string): map<TpgPath, TpgAttrs> {
    map p | p in fs.tpgs && Ours(base, p.iqn) :: fs.tpgs[p]
  }

  ghost function SeenPortals(fs: Fs, base: string): set<PortalPath> {
    set x | x in fs.portals && Ours(base, x.tpg.iqn)
  }

  ghost function SeenLuns(fs: Fs, base: string): set<LunPath> {
    set l | l in fs.luns && Ours(base, l.tpg.iqn)
  }

  ghost function SeenLinks(fs: Fs, base: string): map<LinkPath, DevPath> {
    map x | x in fs.links && Ours(base, x.lun.tpg.iqn) :: fs.links[x]
  }

  ghost function SeenDevs(fs: Fs): map<DevPath, DevView> {
    map d | d in fs.devs && Listable(d) ::
      DevView(fs.devs[d].file, fs.devs[d].size, fs.devs[d].writeCache, fs.devs[d].enabled)
  }

  ghost function ViewOf(fs: Fs, base: string): View {
    View(SeenTpgs(fs, base), SeenPortals(fs, base), SeenLuns(fs, base), SeenLinks(fs, base), SeenDevs(fs))
  }

  ghost function WantedPortals(g: Goal): set<PortalPath> {
    set p | p in g.tpgs :: PortalPath(p, g.portal)
  }

  ghost function WantedLinks(g: Goal): map<LinkPath, DevPath> {
    map x | x in (set l | l in g.luns :: LinkPath(l, g.luns[l].name)) :: g.luns[x.lun]
  }

  ghost function WantedDevs(g: Goal, fs: Fs): map<DevPath, DevView> {
    map d | d in g.devs :: DevView(g.devs[d], fs.Length(g.devs[d]), true, true)
  }

  /** The view the goal asks for: every device is as large as its disk file. */
  ghost function Desired(g: Goal, fs: Fs): View {
    View(map p | p in g.tpgs :: EXPORTED, WantedPortals(g), g.luns.Keys, WantedLinks(g), WantedDevs(g, fs))
  }

  /** Every disk file of the goal exists and is as large as it must be. */
  ghost predicate FilesLarge(fs: Fs, g: Goal)
  {
    forall d | d in g.devs :: g.devs[d] in fs.files && fs.Length(g.devs[d]) >= g.Floor(g.devs[d])
  }

  /** The server sees exactly what it should, and the disk files are large enough. */
  ghost predicate Converged(fs: Fs, g: Goal)
  {
    ViewOf(fs, g.base) == Desired(g, fs) && FilesLarge(fs, g)
  }

  // The drift between the two, item by item.

  datatype Item =
    | TpgItem(p: TpgPath)
    | PortalItem(x: PortalPath)
    | LunItem(l: LunPath)
    | LinkItem(k: LinkPath)
    | DevItem(d: DevPath)

  ghost predicate DevGood(fs: Fs, g: Goal, d: DevPath)
    requires d in g.devs
  {
    && d in fs.devs
    && g.devs[d] in fs.files
    && fs.Length(g.devs[d]) >= g.Floor(g.devs[d])
    && DevSet(fs.devs[d], g.devs[d], fs.Length(g.devs[d]))
  }

  /** Whether the kernel disagrees with the goal about an item. */
  ghost predicate Off(fs: Fs, g: Goal, i: Item)
  {
    match i
    case TpgItem(p) =>
      if p in g.tpgs then p !in fs.tpgs || fs.tpgs[p] != EXPORTED else p in fs.tpgs && Ours(g.base, p.iqn)
    case PortalItem(x) =>
      if g.WantsPortal(x) then x !in fs.portals else x in fs.portals && Ours(g.base, x.tpg.iqn)
    case LunItem(l) =>
      if l in g.luns then l !in fs.luns else l in fs.luns && Ours(g.base, l.tpg.iqn)
    case LinkItem(x) =>
      if x.lun in g.luns && x.name == g.luns[x.lun].name then x !in fs.links || fs.links[x] != g.luns[x.lun]
      else x in fs.links && Ours(g.base, x.lun.tpg.iqn)
    case DevItem(d) =>
      if d in g.devs then !DevGood(fs, g, d) else d in fs.devs && Listable(d)
  }

  lemma TpgsAgree(fs: Fs, g: Goal)
    requires g.Visible()
    ensures SeenTpgs(fs, g.base) == (map p | p in g.tpgs :: EXPORTED) <==> forall p :: !Off(fs, g, TpgItem(p))
  {
    var v, w := SeenTpgs(fs, g.base), map p | p in g.tpgs :: EXPORTED;
    if v == w {
      forall p ensures !Off(fs, g, TpgItem(p)) {
        assert p in v <==> p in w;
        assert p in g.tpgs ==> v[p] == w[p];
      }
    }
    if forall p :: !Off(fs, g, TpgItem(p)) {
      forall p ensures p in v <==> p in w { assert !Off(fs, g, TpgItem(p)); }
      forall p | p in v ensures v[p] == w[p] { assert !Off(fs, g, TpgItem(p)); }
      assert v == w;
    }
  }

  lemma PortalsAgree(fs: Fs, g: Goal)
    requires g.Visible()
    ensures SeenPortals(fs, g.base) == WantedPortals(g) <==> forall x :: !Off(fs, g, PortalItem(x))
  {
    var v, w := SeenPortals(fs, g.base), WantedPortals(g);
    forall x ensures x in w <==> g.WantsPortal(x) {
      if g.WantsPortal(x) { assert x == PortalPath(x.tpg, g.portal); }
    }
    forall x ensures (x in v <==> x in w) <==> !Off(fs, g, PortalItem(x)) {
    }
    if forall x :: !Off(fs, g, PortalItem(x)) {
      forall x ensures x in v <==> x in w { assert !Off(fs, g, PortalItem(x)); }
    }
  }

  lemma LunsAgree(fs: Fs, g: Goal)
    requires g.Visible()
    ensures SeenLuns(fs, g.base) == g.luns.Keys <==> forall l :: !Off(fs, g, LunItem(l))
  {
    var v, w := SeenLuns(fs, g.base), g.luns.Keys;
    forall l ensures (l in v <==> l in w) <==> !Off(fs, g, LunItem(l)) {
    }
    if forall l :: !Off(fs, g, LunItem(l)) {
      forall l ensures l in v <==> l in w { assert !Off(fs, g, LunItem(l)); }
    }
  }

  lemma LinkAgrees(fs: Fs, g: Goal, x: LinkPath)
    requires g.Visible()
    ensures var v, w := SeenLinks(fs, g.base), WantedLinks(g);
            !Off(fs, g, LinkItem(x)) <==> (x in v <==> x in w) && (x in v && x in w ==> v[x] == w[x])
  {
    if x.lun in g.luns && x.name == g.luns[x.lun].name {
      assert x == LinkPath(x.lun, g.luns[x.lun].name);
    }
  }

  lemma LinksAgree(fs: Fs, g: Goal)
    requires g.Visible()
    ensures SeenLinks(fs, g.base) == WantedLinks(g) <==> forall x :: !Off(fs, g, LinkItem(x))
  {
    var v, w := SeenLinks(fs, g.base), WantedLinks(g);
    forall x ensures !Off(fs, g, LinkItem(x)) <==> (x in v <==> x in w) && (x in v && x in w ==> v[x] == w[x]) {
      LinkAgrees(fs, g, x);
    }
    if forall x :: !Off(fs, g, LinkItem(x)) {
      forall x ensures (x in v <==> x in w) && (x in v && x in w ==> v[x] == w[x]) {
        assert !Off(fs, g, LinkItem(x));
      }
      assert v == w;
    }
  }

  lemma DevAgrees(fs: Fs, g: Goal, d: DevPath)
    requires g.Visible()
    ensures var v, w := SeenDevs(fs), WantedDevs(g, fs);
            !Off(fs, g, DevItem(d)) <==>
            && (d in v <==> d in w)
            && (d in v && d in w ==> v[d] == w[d])
            && (d in g.devs ==> g.devs[d] in fs.files && fs.Length(g.devs[d]) >= g.Floor(g.devs[d]))
  {
  }

  lemma DevsAgree(fs: Fs, g: Goal)
    requires g.Visible()
    ensures SeenDevs(fs) == WantedDevs(g, fs) && FilesLarge(fs, g) <==> forall d :: !Off(fs, g, DevItem(d))
  {
    var v, w := SeenDevs(fs), WantedDevs(g, fs);
    if v == w && FilesLarge(fs, g) {
      forall d ensures !Off(fs, g, DevItem(d)) { DevAgrees(fs, g, d); }
    }
    if forall d :: !Off(fs, g, DevItem(d)) {
      forall d ensures (d in v <==> d in w) && (d in v && d in w ==> v[d] == w[d]) {
        assert !Off(fs, g, DevItem(d));
        DevAgrees(fs, g, d);
      }
      assert v == w;
      forall d | d in g.devs ensures g.devs[d] in fs.files && fs.Length(g.devs[d]) >= g.Floor(g.devs[d]) {
        assert !Off(fs, g, DevItem(d));
        DevAgrees(fs, g, d);
      }
    }
  }

  /** The view equals what the goal asks for exactly when nothing is off. */
  lemma ConvergedIffNothingOff(fs: Fs, g: Goal)
    requires g.Visible()
    ensures Converged(fs, g) <==> forall i :: !Off(fs, g, i)
  {
    TpgsAgree(fs, g);
    PortalsAgree(fs, g);
    LunsAgree(fs, g);
    LinksAgree(fs, g);
    DevsAgree(fs, g);
    if Converged(fs, g) {
      forall i ensures !Off(fs, g, i) {
        match i
        case TpgItem(p) =>
        case PortalItem(x) =>
        case LunItem(l) =>
        case LinkItem(x) =>
        case DevItem(d) =>
      }
    }
  }

  // Kernels a reconcile can repair.

  /** The only entries under this server's names have names it writes; a portal group that is
      to go is alone in its target directory; and no wanted id sits under a stale name or link.
      All links in the machine are this server's. */
  ghost predicate Managed(fs: Fs, g: Goal) {
    fs.Wf() && ManagedTargets(fs, g) && ManagedLuns(fs, g) && ManagedDevs(fs, g)
  }

  ghost predicate ManagedTargets(fs: Fs, g: Goal) {
    && (forall p | p in fs.tpgs && Ours(g.base, p.iqn) :: CanonTpg(p.tpg))
    && (forall p, q | p in fs.tpgs && q in fs.tpgs && Ours(g.base, p.iqn) && p !in g.tpgs && q.iqn == p.iqn :: q == p)
    && (forall p, q | p in fs.tpgs && Ours(g.base, p.iqn) && q in g.tpgs && q.tpg == p.tpg :: p == q)
  }

  ghost predicate ManagedLuns(fs: Fs, g: Goal) {
    && (forall l | l in fs.luns && Ours(g.base, l.tpg.iqn) :: CanonLun(l.lun))
    && (forall x | x in fs.links :: Ours(g.base, x.lun.tpg.iqn))
    && (forall x | x in fs.links && x.lun in g.luns :: g.WantsLink(x, fs.links[x]))
  }

  ghost predicate ManagedDevs(fs: Fs, g: Goal) {
    && (forall h | h in fs.hbas :: !ParseHba(h).BadHba? && (ParseHba(h).Hba? ==> CanonHba(h)))
    && (forall c, d | c in fs.devs && d in fs.devs && Listable(d) && c.hba == d.hba :: c == d)
    && (forall c, d | c in fs.devs && d in g.devs && c.hba == d.hba :: c == d)
  }

  // What a reconcile may do.

  ghost predicate NoDeadTargets(fs: Fs, g: Goal) {
    forall p | p in fs.tpgs && Ours(g.base, p.iqn) :: p in g.tpgs
  }

  ghost predicate TowardTargets(a: Fs, b: Fs, g: Goal) {
    && (forall i | i in a.iqns && i !in b.iqns :: Ours(g.base, i))
    && (forall p | p in a.tpgs && p !in b.tpgs :: Ours(g.base, p.iqn) && p !in g.tpgs)
    && (forall p | p in b.tpgs && p !in a.tpgs :: p in g.tpgs && NoDeadTargets(b, g))
    && (forall p | p in a.tpgs && p in b.tpgs && p !in g.tpgs :: b.tpgs[p] == a.tpgs[p])
    && (forall p | p in g.tpgs && p in a.tpgs && a.tpgs[p] == EXPORTED :: p in b.tpgs && b.tpgs[p] == EXPORTED)
    && (forall x | x in a.portals && x !in b.portals :: Ours(g.base, x.tpg.iqn) && !g.WantsPortal(x))
    && (forall x | x in b.portals && x !in a.portals :: g.WantsPortal(x))
  }

  ghost predicate TowardLuns(a: Fs, b: Fs, g: Goal) {
    && (forall l | l in a.luns && l !in b.luns :: Ours(g.base, l.tpg.iqn) && l !in g.luns)
    && (forall l | l in b.luns && l !in a.luns :: l in g.luns)
    && (forall x | x in a.links && x !in b.links :: Ours(g.base, x.lun.tpg.iqn) && x.lun !in g.luns)
    && (forall x | x in b.links && x !in a.links :: g.WantsLink(x, b.links[x]))
    && (forall x | x in a.links && x in b.links :: b.links[x] == a.links[x])
  }

  ghost predicate TowardDevs(a: Fs, b: Fs, g: Goal)
  {
    && (forall h | h in b.hbas && h !in a.hbas :: CanonHba(h))
    && (forall d | d in a.devs && d !in b.devs :: Listable(d) && d !in g.devs)
    && (forall d | d in b.devs && d !in a.devs :: d in g.devs)
    && (forall d | d in a.devs && d in b.devs && d !in g.devs :: b.devs[d] == a.devs[d])
    && (forall d | d in b.devs :: SerialKept(a, b, d))
    && (forall d | d in g.devs && DevGood(a, g, d) && a.Faults(g.devs[d]) == b.Faults(g.devs[d]) :: DevGood(b, g, d))
  }

  /** A disk file changes only when it is a volume's and too small (or could not be statted),
      and then it is emptied or becomes zeros of exactly the wanted size. */
  ghost predicate TowardFile(a: Fs, b: Fs, g: Goal, f: string) {
    || (f in a.files && f in b.files && a.files[f] == b.files[f])
    || (f !in a.files && f !in b.files)
    || (&& f in g.floors && f in b.files
        && (a.Length(f) < g.floors[f] || a.Faults(f) < b.Faults(f))
        && (b.files[f] == [] || b.files[f] == Zeros(g.floors[f])))
  }

  ghost predicate Toward(a: Fs, b: Fs, g: Goal)
  {
    && (forall f :: a.Faults(f) <= b.Faults(f))
    && TowardTargets(a, b, g)
    && TowardLuns(a, b, g)
    && TowardDevs(a, b, g)
    && (forall f :: TowardFile(a, b, g, f))
  }

  /** No stat of a volume's disk file has failed on the way from `a` to `b`. */
  ghost predicate Answered(a: Fs, b: Fs, g: Goal) {
    forall f | f in g.floors :: a.Faults(f) == b.Faults(f)
  }

  lemma TowardRefl(a: Fs, g: Goal)
    ensures Toward(a, a, g)
  {
  }

  lemma TowardTrans(a: Fs, b: Fs, c: Fs, g: Goal)
    requires Toward(a, b, g) && Toward(b, c, g)
    ensures Toward(a, c, g)
  {
    hide TowardTargets, TowardLuns, TowardDevs, TowardFile;
    TowardTargetsTrans(a, b, c, g);
    TowardLunsTrans(a, b, c, g);
    TowardDevsTrans(a, b, c, g);
    forall f ensures TowardFile(a, c, g, f) {
      TowardFileTrans(a, b, c, g, f);
    }
  }

  lemma SerialsKept(a: Fs, b: Fs, g: Goal)
    requires Toward(a, b, g)
    ensures forall d | d in b.devs :: SerialKept(a, b, d)
  {
    hide TowardTargets, TowardLuns, TowardFile;
  }

  lemma TowardLunsTrans(a: Fs, b: Fs, c: Fs, g: Goal)
    requires TowardLuns(a, b, g) && TowardLuns(b, c, g)
    ensures TowardLuns(a, c, g)
  {
    hide Ours;
  }

  lemma TowardDevsTrans(a: Fs, b: Fs, c: Fs, g: Goal)
    requires TowardDevs(a, b, g) && TowardDevs(b, c, g)
    requires forall f :: a.Faults(f) <= b.Faults(f) <= c.Faults(f)
    ensures TowardDevs(a, c, g)
  {
    hide DevGood, CanonHba, ParseHba;
  }

  lemma TowardFileTrans(a: Fs, b: Fs, c: Fs, g: Goal, f: string)
    requires TowardFile(a, b, g, f) && TowardFile(b, c, g, f)
    requires a.Faults(f) <= b.Faults(f) <= c.Faults(f)
    ensures TowardFile(a, c, g, f)
  {
  }

  lemma TowardTargetsTrans(a: Fs, b: Fs, c: Fs, g: Goal)
    requires TowardTargets(a, b, g) && TowardTargets(b, c, g)
    ensures TowardTargets(a, c, g)
  {
  }

  lemma TowardKeepsManagedTargets(a: Fs, b: Fs, g: Goal)
    requires g.Wf() && ManagedTargets(a, g) && TowardTargets(a, b, g)
    ensures ManagedTargets(b, g)
  {
    forall p, q | p in b.tpgs && q in b.tpgs && Ours(g.base, p.iqn) && p !in g.tpgs && q.iqn == p.iqn ensures q == p {
      assert p in a.tpgs;
    }
  }

  lemma TowardKeepsManagedLuns(a: Fs, b: Fs, g: Goal)
    requires g.Wf() && ManagedLuns(a, g) && TowardLuns(a, b, g)
    ensures ManagedLuns(b, g)
  {
  }

  lemma TowardKeepsManagedDevs(a: Fs, b: Fs, g: Goal)
    requires g.Wf() && a.Wf() && ManagedDevs(a, g) && TowardDevs(a, b, g)
    ensures ManagedDevs(b, g)
  {
  }

  /** Every step of a reconcile keeps a managed kernel managed. */
  lemma TowardKeepsManaged(a: Fs, b: Fs, g: Goal)
    requires g.Wf() && Managed(a, g) && b.Wf() && Toward(a, b, g)
    ensures Managed(b, g)
  {
    TowardKeepsManagedTargets(a, b, g);
    TowardKeepsManagedLuns(a, b, g);
    TowardKeepsManagedDevs(a, b, g);
  }

  /** No step of a reconcile puts anything off that was not, as long as stats are answered. */
  lemma TowardShrinksDrift(a: Fs, b: Fs, g: Goal)
    requires g.Closed() && Toward(a, b, g) && Answered(a, b, g)
    ensures forall i | Off(b, g, i) :: Off(a, g, i)
  {
    forall i | Off(b, g, i) ensures Off(a, g, i) {
      match i
      case TpgItem(p) =>
      case PortalItem(x) =>
      case LunItem(l) =>
      case LinkItem(x) =>
      case DevItem(d) =>
    }
  }

  /** A kernel that has converged stays converged through any further reconciles, finished or
      not, and no byte of any disk file changes. */
  lemma ConvergedIsStable(a: Fs, b: Fs, g: Goal)
    requires g.Wf() && Converged(a, g) && Toward(a, b, g) && Answered(a, b, g)
    ensures Converged(b, g)
    ensures ViewOf(b, g.base) == ViewOf(a, g.base)
    ensures b.files == a.files
  {
    hide TowardTargets, TowardLuns, TowardDevs, TowardFile, ViewOf, Desired, Off, FilesLarge, Goal.Wf,
      Goal.Visible, Goal.Closed, Answered;
    WfIsVisible(g);
    ConvergedIffNothingOff(a, g);
    TowardShrinksDrift(a, b, g);
    ConvergedIffNothingOff(b, g);
    LargeFilesStay(a, b, g);
    DesiredFollowsFiles(a, b, g);
  }

  lemma DesiredFollowsFiles(a: Fs, b: Fs, g: Goal)
    requires a.files == b.files
    ensures Desired(g, a) == Desired(g, b)
  {
    assert WantedDevs(g, a) == WantedDevs(g, b);
  }

  lemma LargeFilesStay(a: Fs, b: Fs, g: Goal)
    requires g.Wf() && FilesLarge(a, g) && Answered(a, b, g)
    requires forall f :: TowardFile(a, b, g, f)
    ensures b.files == a.files
  {
    forall f ensures f in a.files <==> f in b.files { assert TowardFile(a, b, g, f); }
    forall f | f in a.files ensures a.files[f] == b.files[f] { assert TowardFile(a, b, g, f); }
  }

  /** What a finished reconcile leaves in a disk file. */
  ghost function FinalBytes(a: Fs, g: Goal, f: string): seq<byte>
    requires f in a.files || f in g.floors
  {
    if f in g.floors && (f !in a.files || a.Length(f) < g.floors[f]) then Zeros(g.floors[f]) else a.files[f]
  }

  lemma FinalFiles(a: Fs, b: Fs, g: Goal)
    requires g.Wf() && FilesLarge(b, g) && Answered(a, b, g)
    requires forall f :: TowardFile(a, b, g, f)
    ensures b.files.Keys == a.files.Keys + g.floors.Keys
    ensures forall f | f in b.files :: b.files[f] == FinalBytes(a, g, f)
  {
    forall f ensures f in b.files <==> f in a.files || f in g.floors { assert TowardFile(a, b, g, f); }
    forall f | f in b.files ensures b.files[f] == FinalBytes(a, g, f) { assert TowardFile(a, b, g, f); }
  }

  /** What was in a volume's disk file is still there after a finished reconcile exactly when
      the file was large enough or held nothing but zeros: growing a file empties it. */
  lemma BytesKeptIffLargeEnough(a: Fs, b: Fs, g: Goal, f: string)
    requires g.Wf() && Toward(a, b, g) && Converged(b, g) && Answered(a, b, g)
    requires f in g.floors && f in a.files
    ensures f in b.files && |b.files[f]| >= |a.files[f]|
    ensures b.files[f][..|a.files[f]|] == a.files[f] <==>
            |a.files[f]| >= g.floors[f] || a.files[f] == Zeros(|a.files[f]|)
  {
    hide TowardTargets, TowardLuns, TowardDevs, TowardFile, Goal.Wf, ViewOf, Desired;
    FinalFiles(a, b, g);
    ZerosPrefix(|a.files[f]|, g.floors[f]);
  }

  lemma ZerosPrefix(n: nat, m: int)
    ensures n <= m ==> |Zeros(m)| == m && Zeros(m)[..n] == Zeros(n)
  {
  }

  lemma FilesDetermined(a: Fs, b: Fs, c: Fs, g: Goal)
    requires g.Wf()
    requires FilesLarge(b, g) && Answered(a, b, g) && forall f :: TowardFile(a, b, g, f)
    requires FilesLarge(c, g) && Answered(a, c, g) && forall f :: TowardFile(a, c, g, f)
    ensures b.files == c.files
  {
    FinalFiles(a, b, g);
    FinalFiles(a, c, g);
  }

  /** However many interrupted reconciles come first, a finished one reaches the view and the
      disk files that a single finished one reaches. */
  lemma PrefixesDoNotMatter(a: Fs, once: Fs, again: Fs, g: Goal)
    requires g.Wf()
    requires Toward(a, once, g) && Converged(once, g) && Answered(a, once, g)
    requires Toward(a, again, g) && Converged(again, g) && Answered(a, again, g)
    ensures ViewOf(again, g.base) == ViewOf(once, g.base)
    ensures again.files == once.files
  {
    FilesDetermined(a, once, again, g);
    DesiredFollowsFiles(once, again, g);
  }
}
