/** The helpers that list, upsert and delete targets, portals, LUNs, backstores and disk files. */
module Lio {
  import opened Types
  import opened Names
  import opened KernelTree
  import opened Frames

  // Listings.

  method ListTargets(k: Kernel, base: string) returns (e: Err, targets: seq<Target>)
    requires k.fs.Wf()
    ensures e in {Ok, Syntax, Fault}
    ensures e == Ok ==> forall p | Listed(k.fs, base, p) :: TargetAt(base, p) in targets
    ensures e == Ok ==> forall t | t in targets :: TargetListed(k.fs, base, t)
    ensures e == Ok ==> !BadTargets(k.fs, base)
    ensures e == Syntax ==> BadTargets(k.fs, base)
    ensures !k.flaky ==> e != Fault
  {
    targets := [];
    var re, iqns := k.ReadRoot();
    if re != Ok && re != NotExist { return re, targets; }
    for i := 0 to |iqns|
      invariant forall p | p in k.fs.tpgs && p.iqn in iqns[..i] && Ours(base, p.iqn) :: !ParseTpg(p.tpg).Bad?
      invariant forall p | Listed(k.fs, base, p) && p.iqn in iqns[..i] :: TargetAt(base, p) in targets
      invariant forall t | t in targets :: TargetListed(k.fs, base, t)
    {
      var iqn := iqns[i];
      assert iqns[..i + 1] == iqns[..i] + [iqn];
      if !Ours(base, iqn) { continue; }
      var te, found := ListTpgs(k, base, iqn);
      if te != Ok { return te, targets; }
      targets := targets + found;
    }
    e := Ok;
  }

  /** The part of `ListTargets` that reads one target directory. */
  method ListTpgs(k: Kernel, base: string, iqn: string) returns (e: Err, targets: seq<Target>)
    requires k.fs.Wf() && Ours(base, iqn)
    ensures e in {Ok, Syntax, Fault}
    ensures e == Ok ==> forall p | Listed(k.fs, base, p) && p.iqn == iqn :: TargetAt(base, p) in targets
    ensures e == Ok ==> forall t | t in targets :: TargetListed(k.fs, base, t)
    ensures e == Ok ==> forall p | p in k.fs.tpgs && p.iqn == iqn :: !ParseTpg(p.tpg).Bad?
    ensures e == Syntax ==> BadTargets(k.fs, base)
    ensures !k.flaky ==> e != Fault
  {
    targets := [];
    var te, tpgs := k.ReadIqn(iqn);
    if te != Ok && te != NotExist { return te, targets; }
    for j := 0 to |tpgs|
      invariant forall q | q in tpgs[..j] :: !ParseTpg(q).Bad?
      invariant forall q | q in tpgs[..j] && ParseTpg(q).Num? :: TargetAt(base, TpgPath(iqn, q)) in targets
      invariant forall t | t in targets :: TargetListed(k.fs, base, t)
    {
      var tpg := tpgs[j];
      assert tpgs[..j + 1] == tpgs[..j] + [tpg];
      ghost var p := TpgPath(iqn, tpg);
      assert p in k.fs.tpgs;
      match ParseTpg(tpg)
      case Ignored => continue;
      case Bad => return Syntax, targets;
      case Num(id) =>
        assert Listed(k.fs, base, p);
        targets := targets + [Target(id, PoolNameOf(base, iqn), iqn)];
        assert targets[|targets| - 1] == TargetAt(base, p);
    }
    assert forall p | p in k.fs.tpgs && p.iqn == iqn :: p == TpgPath(iqn, p.tpg) && p.tpg in tpgs[..|tpgs|];
    e := Ok;
  }

  method ListPortals(k: Kernel, t: Target) returns (e: Err, portals: seq<string>)
    requires k.fs.Wf()
    ensures e in {Ok, Fault}
    ensures e == Ok ==> forall x :: x in portals <==> PortalPath(TpgOf(t), x) in k.fs.portals
    ensures !k.flaky ==> e != Fault
  {
    e, portals := k.ReadPortals(TpgOf(t));
    if e == NotExist { e := Ok; }
  }

  method ListLUNs(k: Kernel, t: Target) returns (e: Err, luns: seq<u16>)
    requires k.fs.Wf()
    ensures e in {Ok, Syntax, Fault}
    ensures e == Ok ==> forall l | l in k.fs.luns && l.tpg == TpgOf(t) && ParseLun(l.lun).Num? ::
            ParseLun(l.lun).id in luns
    ensures e == Ok ==> forall n | n in luns :: LunListed(k.fs, TpgOf(t), n)
    ensures e == Ok ==> !BadLuns(k.fs, TpgOf(t))
    ensures e == Syntax ==> BadLuns(k.fs, TpgOf(t))
    ensures !k.flaky ==> e != Fault
  {
    luns := [];
    ghost var p := TpgOf(t);
    var re, names := k.ReadLuns(TpgOf(t));
    if re != Ok && re != NotExist { return re, luns; }
    for i := 0 to |names|
      invariant forall x | x in names[..i] && ParseLun(x).Num? :: ParseLun(x).id in luns
      invariant forall n | n in luns :: LunListed(k.fs, p, n)
      invariant forall x | x in names[..i] :: !ParseLun(x).Bad?
    {
      assert names[..i + 1] == names[..i] + [names[i]];
      assert LunPath(p, names[i]) in k.fs.luns;
      match ParseLun(names[i])
      case Ignored => continue;
      case Bad => return Syntax, luns;
      case Num(n) =>
        luns := luns + [n];
    }
    assert forall l | l in k.fs.luns && l.tpg == p :: l == LunPath(p, l.lun) && l.lun in names[..|names|];
    e := Ok;
  }

  method ListBackstores(k: Kernel) returns (e: Err, backstores: seq<Backstore>)
    requires k.fs.Wf()
    ensures e in {Ok, Syntax, Fault}
    ensures e == Ok ==> forall d | ListedDev(k.fs, d) :: Covered(k.fs, backstores, d.hba)
    ensures e == Ok ==> forall b | b in backstores :: BackstoreListed(k.fs, b)
    ensures e == Ok ==> !BadHbas(k.fs)
    ensures e == Syntax ==> BadHbas(k.fs)
    ensures !k.flaky ==> e != Fault
  {
    backstores := [];
    var re, hbas := k.ReadCore();
    if re != Ok { return re, backstores; }
    for i := 0 to |hbas|
      invariant forall d | ListedDev(k.fs, d) && d.hba in hbas[..i] :: Covered(k.fs, backstores, d.hba)
      invariant forall b | b in backstores :: BackstoreListed(k.fs, b)
      invariant forall h | h in hbas[..i] :: !ParseHba(h).BadHba?
    {
      var hba := hbas[i];
      assert hbas[..i + 1] == hbas[..i] + [hba];
      match ParseHba(hba)
      case NotAnHba => continue;
      case BadHba => return Syntax, backstores;
      case Hba(kind, id) =>
        var de, name := LastDataDir(k, hba);
        if de == NotExist { continue; }
        if de != Ok { return de, backstores; }
        if name == "" { continue; }
        var b := Backstore(kind, id, name, "", 0);
        CoverOne(k.fs, backstores, DevPath(hba, name));
        backstores := backstores + [b];
    }
    e := Ok;
  }

  lemma CoverOne(fs: Fs, backstores: seq<Backstore>, d: DevPath)
    requires ListedDev(fs, d)
    ensures BackstoreListed(fs, BackstoreAt(d))
    ensures Covered(fs, backstores + [BackstoreAt(d)], d.hba)
    ensures forall h | Covered(fs, backstores, h) :: Covered(fs, backstores + [BackstoreAt(d)], h)
  {
    var more := backstores + [BackstoreAt(d)];
    assert more[|backstores|] == BackstoreAt(d);
    forall h | Covered(fs, backstores, h) ensures Covered(fs, more, h) {
      var c :| ListedDev(fs, c) && c.hba == h && BackstoreAt(c) in backstores;
      assert BackstoreAt(c) in more;
    }
  }

  /** The data directory the listing keeps: the last one it reads, or "" when there is none. */
  method LastDataDir(k: Kernel, hba: string) returns (e: Err, name: string)
    requires k.fs.Wf()
    ensures e in {Ok, NotExist, Fault}
    ensures e == NotExist ==> hba !in k.fs.hbas
    ensures e == Ok && name != "" ==> DevPath(hba, name) in k.fs.devs
    ensures e == Ok && name == "" ==> forall d | d in k.fs.devs :: d.hba != hba
    ensures !k.flaky ==> e != Fault
  {
    var names;
    name := "";
    e, names := k.ReadHba(hba);
    if e != Ok { return e, name; }
    for j := 0 to |names|
      invariant name == if j == 0 then "" else names[j - 1]
    {
      name := names[j];
    }
    assert forall d | d in k.fs.devs && d.hba == hba :: d == DevPath(hba, d.name) && d.name in names;
    if |names| > 0 {
      assert DevPath(hba, name) in k.fs.devs;
    }
  }

  // LUNs.

  ghost predicate LinksOnly(a: Fs, b: Fs, l: LunPath) {
    && b == a.(links := b.links)
    && LinksCut(a.links, b.links)
    && (forall x | x in a.links && x !in b.links :: x.lun == l)
  }

  /** Removes the links in a LUN directory. */
  method DeleteLinks(k: Kernel, l: LunPath) returns (e: Err)
    modifies k
    ensures LinksOnly(old(k.fs), k.fs, l)
    ensures e in {Ok, NotExist, Fault}
    ensures e == NotExist ==> l !in k.fs.luns && k.fs == old(k.fs)
    ensures e == Ok ==> forall x | x in k.fs.links :: x.lun != l
    ensures !k.flaky ==> e != Fault
  {
    var re, names := k.ReadLinks(l);
    if re != Ok { return re; }
    for i := 0 to |names|
      invariant LinksOnly(old(k.fs), k.fs, l)
      invariant forall x | x in k.fs.links && x.lun == l :: x.name in names[i..]
      invariant forall j | i <= j < |names| :: LinkPath(l, names[j]) in k.fs.links
    {
      e := k.Read();
      if e != Ok { return e; }
      e := k.RemoveLink(LinkPath(l, names[i]));
      if e != Ok { return e; }
    }
    e := Ok;
  }

  method DeleteLUN(k: Kernel, t: Target, lun: u16) returns (e: Err)
    requires k.fs.Wf()
    modifies k
    ensures k.fs.Wf()
    ensures LunCut(old(k.fs), k.fs, LunOf(t, lun))
    ensures e in {Ok, Fault}
    ensures e == Ok ==> LunOf(t, lun) !in k.fs.luns
    ensures !k.flaky ==> e != Fault
  {
    var l := LunOf(t, lun);
    e := DeleteLinks(k, l);
    if e != Ok && e != NotExist { return e; }
    e := k.RemoveLun(l);
    if e == NotExist { e := Ok; }
  }

  method UpsertLUN(k: Kernel, t: Target, lun: u16, b: Backstore) returns (e: Err)
    requires k.fs.Wf() && t.iqn != ""
    modifies k
    ensures k.fs.Wf()
    ensures LunPut(old(k.fs), k.fs, LinkPath(LunOf(t, lun), b.name), DevOf(b))
    ensures e == Ok ==> LunOf(t, lun) in k.fs.luns && LinkPath(LunOf(t, lun), b.name) in k.fs.links
    ensures e in {Ok, NotExist, Fault} && (e == NotExist ==> DevOf(b) !in k.fs.devs)
    ensures !k.flaky ==> e != Fault
  {
    var l := LunOf(t, lun);
    e := MkdirAllTpg(k, TpgOf(t));
    if e != Ok { return e; }
    if l !in k.fs.luns {
      e := k.MakeLun(l);
      if e != Ok { return e; }
    }
    e := k.Symlink(DevOf(b), LinkPath(l, b.name));
    if e == Exist { e := Ok; }
  }

  // Targets and portals.

  /** `os.MkdirAll` down to a portal group: only missing directories are made. */
  method MkdirAllTpg(k: Kernel, p: TpgPath) returns (e: Err)
    requires k.fs.Wf() && p.iqn != ""
    modifies k
    ensures k.fs.Wf()
    ensures TargetPut(old(k.fs), k.fs, p)
    ensures p in old(k.fs.tpgs) ==> k.fs == old(k.fs)
    ensures e in {Ok, Fault}
    ensures e == Ok ==> p in k.fs.tpgs
    ensures !k.flaky ==> e != Fault
  {
    if p in k.fs.tpgs { return Ok; }
    if !k.fs.root {
      e := k.MakeRoot();
      if e != Ok { return e; }
    }
    if p.iqn !in k.fs.iqns {
      e := k.MakeIqn(p.iqn);
      if e != Ok { return e; }
    }
    e := k.MakeTpg(p);
  }

  ghost predicate AttrsOnly(a: Fs, b: Fs, p: TpgPath) {
    p in a.tpgs && p in b.tpgs && b == a.(tpgs := b.tpgs) && b.tpgs == a.tpgs[p := b.tpgs[p]]
  }

  lemma AttrsOnlyTwice(a: Fs, b: Fs, c: Fs, p: TpgPath)
    requires AttrsOnly(a, b, p) && AttrsOnly(b, c, p)
    ensures AttrsOnly(a, c, p)
    ensures c.tpgs[p] == a.tpgs[p] ==> c == a
  {
    assert c.tpgs == a.tpgs[p := c.tpgs[p]];
    if c.tpgs[p] == a.tpgs[p] {
      assert c.tpgs == a.tpgs;
    }
  }

  /** Writes an attribute only when it reads differently. */
  method SetConfig(k: Kernel, p: TpgPath, a: TpgAttr, v: bool) returns (e: Err)
    requires p in k.fs.tpgs
    modifies k
    ensures e in {Ok, Fault}
    ensures AttrsOnly(old(k.fs), k.fs, p)
    ensures k.fs.tpgs[p] == old(k.fs.tpgs[p]).Set(a, v) || (e == Fault && k.fs.tpgs[p] == old(k.fs.tpgs[p]))
    ensures !k.flaky ==> e != Fault
  {
    assert k.fs.tpgs == k.fs.tpgs[p := k.fs.tpgs[p]];
    e := k.Read();
    if e != Ok { return e; }
    if k.fs.tpgs[p].Get(a) != v {
      e := k.WriteTpgAttr(p, a, v);
    }
  }

  /** The four attributes of a portal group, in the order they are written. */
  method SetAttrs(k: Kernel, p: TpgPath) returns (e: Err)
    requires p in k.fs.tpgs
    modifies k
    ensures e in {Ok, Fault}
    ensures AttrsOnly(old(k.fs), k.fs, p)
    ensures old(k.fs.tpgs[p]) == EXPORTED ==> k.fs == old(k.fs)
    ensures e == Ok ==> k.fs.tpgs[p] == EXPORTED
    ensures !k.flaky ==> e != Fault
  {
    ghost var f0 := k.fs;
    e := SetConfig(k, p, Enable, true);
    ghost var f1 := k.fs;
    AttrsOnlyTwice(f0, f0, f1, p);
    if e != Ok { return e; }
    e := SetConfig(k, p, Authentication, false);
    ghost var f2 := k.fs;
    AttrsOnlyTwice(f0, f1, f2, p);
    if e != Ok { return e; }
    e := SetConfig(k, p, GenerateNodeAcls, true);
    ghost var f3 := k.fs;
    AttrsOnlyTwice(f0, f2, f3, p);
    if e != Ok { return e; }
    e := SetConfig(k, p, DemoModeWriteProtect, false);
    AttrsOnlyTwice(f0, f3, k.fs, p);
  }

  method UpsertTarget(k: Kernel, t: Target) returns (e: Err)
    requires k.fs.Wf() && t.iqn != ""
    modifies k
    ensures k.fs.Wf()
    ensures TargetPut(old(k.fs), k.fs, TpgOf(t))
    ensures e in {Ok, Fault}
    ensures e == Ok ==> TpgOf(t) in k.fs.tpgs && k.fs.tpgs[TpgOf(t)] == EXPORTED
    ensures !k.flaky ==> e != Fault
  {
    var p := TpgOf(t);
    e := MkdirAllTpg(k, p);
    if e != Ok { return e; }
    e := SetAttrs(k, p);
  }

  method DeletePortal(k: Kernel, t: Target, portal: string) returns (e: Err)
    requires k.fs.Wf()
    modifies k
    ensures k.fs.Wf()
    ensures k.fs == old(k.fs) || k.fs == old(k.fs).(portals := old(k.fs.portals) - {PortalPath(TpgOf(t), portal)})
    ensures e in {Ok, Fault}
    ensures e == Ok ==> PortalPath(TpgOf(t), portal) !in k.fs.portals
    ensures !k.flaky ==> e != Fault
  {
    e := k.RemovePortal(PortalPath(TpgOf(t), portal));
    if e == NotExist { e := Ok; }
  }

  method UpsertPortal(k: Kernel, t: Target, portal: string) returns (e: Err)
    requires k.fs.Wf() && t.iqn != ""
    modifies k
    ensures k.fs.Wf()
    ensures PortalPut(old(k.fs), k.fs, PortalPath(TpgOf(t), portal))
    ensures e in {Ok, Fault}
    ensures e == Ok ==> PortalPath(TpgOf(t), portal) in k.fs.portals
    ensures !k.flaky ==> e != Fault
  {
    e := MkdirAllTpg(k, TpgOf(t));
    if e != Ok { return e; }
    if PortalPath(TpgOf(t), portal) !in k.fs.portals {
      e := k.MakePortal(PortalPath(TpgOf(t), portal));
    }
  }

  method DeletePortals(k: Kernel, t: Target) returns (e: Err)
    requires k.fs.Wf()
    modifies k
    ensures k.fs.Wf()
    ensures k.fs == old(k.fs).(portals := k.fs.portals)
    ensures TargetCut(old(k.fs), k.fs, TpgOf(t))
    ensures e in {Ok, Fault}
    ensures e == Ok ==> forall x | x in k.fs.portals :: x.tpg != TpgOf(t)
    ensures !k.flaky ==> e != Fault
  {
    var p := TpgOf(t);
    var le, portals := ListPortals(k, t);
    if le != Ok { return le; }
    for i := 0 to |portals|
      invariant k.fs.Wf()
      invariant k.fs == old(k.fs).(portals := k.fs.portals)
      invariant TargetCut(old(k.fs), k.fs, p)
      invariant forall x | x in k.fs.portals && x.tpg == p :: x.portal in portals[i..]
    {
      e := DeletePortal(k, t, portals[i]);
      if e != Ok { return e; }
    }
    e := Ok;
  }

  ghost predicate LunsOnly(a: Fs, b: Fs, p: TpgPath) {
    b == a.(luns := b.luns, links := b.links) && TargetCut(a, b, p)
  }

  lemma CutMoreLuns(a: Fs, b: Fs, c: Fs, l: LunPath)
    requires LunsOnly(a, b, l.tpg) && LunCut(b, c, l)
    ensures LunsOnly(a, c, l.tpg)
  {
  }

  ghost predicate LunsAmong(fs: Fs, p: TpgPath, ids: seq<u16>) {
    forall l | l in fs.luns && l.tpg == p && CanonLun(l.lun) :: ParseLun(l.lun).id in ids
  }

  lemma OneLunLess(a: Fs, b: Fs, t: Target, id: u16, ids: seq<u16>, rest: seq<u16>)
    requires LunsAmong(a, TpgOf(t), ids) && LunCut(a, b, LunOf(t, id)) && LunOf(t, id) !in b.luns
    requires ids == [id] + rest
    ensures LunsAmong(b, TpgOf(t), rest)
  {
    hide LunName, TpgName, TpgOf, ParseLun;
    forall l | l in b.luns && l.tpg == TpgOf(t) && CanonLun(l.lun) ensures ParseLun(l.lun).id in rest {
      assert l != LunOf(t, id);
      assert l == LunPath(TpgOf(t), LunName(ParseLun(l.lun).id));
    }
  }

  lemma NoLunsLeft(fs: Fs, p: TpgPath)
    requires LunsAmong(fs, p, []) && LegibleLuns(fs, p)
    ensures forall l | l in fs.luns :: l.tpg != p
  {
    hide CanonLun, ParseLun;
  }

  lemma AllLunsListed(fs: Fs, p: TpgPath, ids: seq<u16>)
    requires forall l | l in fs.luns && l.tpg == p && ParseLun(l.lun).Num? :: ParseLun(l.lun).id in ids
    ensures LunsAmong(fs, p, ids)
  {
  }

  method DeleteLUNs(k: Kernel, t: Target) returns (e: Err)
    requires k.fs.Wf()
    modifies k
    ensures k.fs.Wf()
    ensures LunsOnly(old(k.fs), k.fs, TpgOf(t))
    ensures e in {Ok, Syntax, Fault}
    ensures LegibleLuns(old(k.fs), TpgOf(t)) ==> e != Syntax
    ensures e == Syntax ==> BadLuns(old(k.fs), TpgOf(t))
    ensures LegibleLuns(old(k.fs), TpgOf(t)) && e == Ok ==> forall l | l in k.fs.luns :: l.tpg != TpgOf(t)
    ensures forall l | l in old(k.fs.luns) && !CanonLun(l.lun) :: l in k.fs.luns
    ensures !k.flaky ==> e != Fault
  {
    hide LunsOnly, LunsAmong, LegibleLuns, TpgOf, LunName, LunCut, ParseLun, CanonLun, Fs.Wf, LunListed,
      BadLuns;
    var p := TpgOf(t);
    var le, luns := ListLUNs(k, t);
    if LegibleLuns(k.fs, p) { LegibleParses(k.fs, p); }
    NoLunsCut(k.fs, p);
    if le != Ok { return le; }
    AllLunsListed(k.fs, p, luns);
    assert luns[0..] == luns;
    for i := 0 to |luns|
      invariant k.fs.Wf()
      invariant LunsOnly(old(k.fs), k.fs, p)
      invariant LunsAmong(k.fs, p, luns[i..])
      invariant forall l | l in old(k.fs.luns) && !CanonLun(l.lun) :: l in k.fs.luns
    {
      ghost var before := k.fs;
      e := DeleteLUN(k, t, luns[i]);
      LunOfTpg(t, luns[i]);
      IllegibleStays(before, k.fs, t, luns[i]);
      CutMoreLuns(old(k.fs), before, k.fs, LunOf(t, luns[i]));
      if e != Ok { return e; }
      OneLunLess(before, k.fs, t, luns[i], luns[i..], luns[i + 1..]);
    }
    if LegibleLuns(old(k.fs), p) {
      LunsStayLegible(old(k.fs), k.fs, p);
      NoLunsLeft(k.fs, p);
    }
    e := Ok;
  }

  lemma IllegibleStays(a: Fs, b: Fs, t: Target, id: u16)
    requires LunCut(a, b, LunOf(t, id))
    ensures forall l | l in a.luns && !CanonLun(l.lun) :: l in b.luns
  {
    assert ParseLun(LunName(id)) == Num(id);
  }

  lemma LegibleParses(fs: Fs, p: TpgPath)
    requires LegibleLuns(fs, p)
    ensures !exists l :: l in fs.luns && l.tpg == p && ParseLun(l.lun).Bad?
  {
  }

  lemma NoLunsCut(fs: Fs, p: TpgPath)
    ensures LunsOnly(fs, fs, p)
  {
  }

  lemma LunOfTpg(t: Target, id: u16)
    ensures LunOf(t, id).tpg == TpgOf(t)
  {
  }

  lemma LunsStayLegible(a: Fs, b: Fs, p: TpgPath)
    requires LegibleLuns(a, p) && LunsOnly(a, b, p)
    ensures LegibleLuns(b, p)
  {
  }

  lemma TpgOfIqn(t: Target)
    ensures TpgOf(t).iqn == t.iqn
  {
  }

  method DeleteTarget(k: Kernel, t: Target) returns (e: Err)
    requires k.fs.Wf()
    modifies k
    ensures k.fs.Wf()
    ensures TargetCut(old(k.fs), k.fs, TpgOf(t))
    ensures e in {Ok, Busy, Syntax, Fault}
    ensures e == Ok && t.iqn != "" ==> TpgOf(t) !in k.fs.tpgs && t.iqn !in k.fs.iqns
    ensures t.iqn != "" && LegibleLuns(old(k.fs), TpgOf(t)) && AloneInIqn(old(k.fs), TpgOf(t)) ==> e in {Ok, Fault}
    ensures e == Syntax ==> BadLuns(old(k.fs), TpgOf(t))
    ensures t.iqn != "" && e == Ok ==> AloneInIqn(old(k.fs), TpgOf(t)) && LegibleLuns(old(k.fs), TpgOf(t))
    ensures t.iqn == "" ==> k.fs == old(k.fs).(root := k.fs.root)
    ensures t.iqn == "" ==> if old(k.fs.iqns) == {} then e in {Ok, Fault} else e in {Busy, Fault}
    ensures t.iqn == "" && e == Ok ==> !k.fs.root
    ensures !k.flaky ==> e != Fault
  {
    hide TpgOf, CanonLun, TpgName, ParseLun, TargetCut, LunsOnly, LegibleLuns, AloneInIqn, BadLuns, Fs.Wf;
    TpgOfIqn(t);
    var p := TpgOf(t);
    ghost var f0 := k.fs;
    e := DeletePortals(k, t);
    ghost var f1 := k.fs;
    PortalsAside(f0, f1, p);
    if t.iqn == "" { NoNameNoChange(f0, f1, p); }
    if e != Ok { return e; }
    e := DeleteLUNs(k, t);
    ghost var f2 := k.fs;
    LunsAside(f0, f1, f2, p);
    if t.iqn == "" { NoNameNoChange(f1, f2, p); }
    if e != Ok { return e; }
    e := RemoveDirs(k, p);
    CutTrans(f0, f2, k.fs, p);
    if e == Ok && p.iqn != "" { NoneIllegible(f0, f2, p); }
  }

  /** A portal group without portals, and its target directory. */
  method RemoveDirs(k: Kernel, p: TpgPath) returns (e: Err)
    requires k.fs.Wf() && forall x | x in k.fs.portals :: x.tpg != p
    modifies k
    ensures k.fs.Wf() && TargetCut(old(k.fs), k.fs, p)
    ensures e in {Ok, Busy, Fault}
    ensures e == Ok && p.iqn != "" ==> p !in k.fs.tpgs && p.iqn !in k.fs.iqns
    ensures p.iqn != "" && AloneInIqn(old(k.fs), p) && (forall l | l in old(k.fs.luns) :: l.tpg != p) ==>
        e in {Ok, Fault}
    ensures e == Ok && p.iqn != "" ==> AloneInIqn(old(k.fs), p) && forall l | l in old(k.fs.luns) :: l.tpg != p
    ensures p.iqn == "" ==> k.fs == old(k.fs).(root := k.fs.root)
    ensures p.iqn == "" ==> if old(k.fs.iqns) == {} then e in {Ok, Fault} else e in {Busy, Fault}
    ensures p.iqn == "" && e == Ok ==> !k.fs.root
    ensures !k.flaky ==> e != Fault
  {
    e := k.RemoveTpg(p);
    if e != Ok && e != NotExist { return e; }
    e := k.RemoveIqn(p.iqn);
    if e == NotExist { e := Ok; }
  }

  /** Nothing is in a target without a name. */
  lemma NoNameNoChange(a: Fs, b: Fs, p: TpgPath)
    requires a.Wf() && p.iqn == "" && TargetCut(a, b, p)
    requires b == a.(portals := b.portals) || b == a.(luns := b.luns, links := b.links)
    ensures b == a && !BadLuns(a, p)
  {
    hide ParseLun;
  }

  lemma PortalsAside(a: Fs, b: Fs, p: TpgPath)
    requires b == a.(portals := b.portals)
    ensures AloneInIqn(b, p) <==> AloneInIqn(a, p)
    ensures LegibleLuns(b, p) <==> LegibleLuns(a, p)
    ensures BadLuns(b, p) <==> BadLuns(a, p)
  {
    hide CanonLun, ParseLun;
  }

  lemma LunsAside(a: Fs, b: Fs, c: Fs, p: TpgPath)
    requires TargetCut(a, b, p) && LunsOnly(b, c, p)
    ensures TargetCut(a, c, p)
    ensures c.portals == b.portals && c.iqns == b.iqns && c.tpgs == b.tpgs
    ensures TargetCut(b, c, p) && c == b.(luns := c.luns, links := c.links)
    ensures AloneInIqn(c, p) <==> AloneInIqn(b, p)
  {
  }

  lemma CutTrans(a: Fs, b: Fs, c: Fs, p: TpgPath)
    requires TargetCut(a, b, p) && TargetCut(b, c, p)
    ensures TargetCut(a, c, p)
  {
  }

  lemma NoneIllegible(a: Fs, b: Fs, p: TpgPath)
    requires forall l | l in a.luns && !CanonLun(l.lun) :: l in b.luns
    requires forall l | l in b.luns :: l.tpg != p
    ensures LegibleLuns(a, p)
  {
  }

  // Backstores.

  ghost predicate DevsAmong(fs: Fs, hba: string, names: seq<string>) {
    forall d | d in fs.devs && d.hba == hba :: d.name in names
  }

  lemma OneDevLess(a: Fs, b: Fs, hba: string, name: string, names: seq<string>, rest: seq<string>)
    requires DevsAmong(a, hba, names) && b.devs.Keys <= a.devs.Keys && DevPath(hba, name) !in b.devs
    requires names == [name] + rest
    ensures DevsAmong(b, hba, rest)
  {
    forall d | d in b.devs && d.hba == hba ensures d.name in rest {
      assert d == DevPath(hba, d.name);
    }
  }

  method DeleteBackstore(k: Kernel, b: Backstore) returns (e: Err)
    requires k.fs.Wf()
    modifies k
    ensures k.fs.Wf()
    ensures HbaCut(old(k.fs), k.fs, HbaName(b.kind, b.id))
    ensures e in {Ok, Busy, Fault}
    ensures e == Ok ==> HbaName(b.kind, b.id) !in k.fs.hbas
    ensures e == Busy ==> exists x :: x in k.fs.links && k.fs.links[x].hba == HbaName(b.kind, b.id)
    ensures !k.flaky ==> e != Fault
  {
    hide HbaName;
    var hba := HbaName(b.kind, b.id);
    var re, names := k.ReadHba(hba);
    if re != Ok && re != NotExist { return re; }
    if re == NotExist { names := []; }
    for i := 0 to |names|
      invariant k.fs.Wf()
      invariant HbaCut(old(k.fs), k.fs, hba) && k.fs.hbas == old(k.fs.hbas)
      invariant DevsAmong(k.fs, hba, names[i..])
    {
      ghost var before := k.fs;
      e := k.RemoveDev(DevPath(hba, names[i]));
      if e != Ok && e != NotExist { return e; }
      OneDevLess(before, k.fs, hba, names[i], names[i..], names[i + 1..]);
    }
    e := k.RemoveHba(hba);
    if e == NotExist { e := Ok; }
  }

  ghost predicate DevOnly(a: Fs, b: Fs, d: DevPath) {
    d in a.devs && d in b.devs && b == a.(devs := b.devs) && b.devs == a.devs[d := b.devs[d]]
  }

  lemma DevOnlyTwice(a: Fs, b: Fs, c: Fs, d: DevPath)
    requires (b == a && d in a.devs) || DevOnly(a, b, d)
    requires DevOnly(b, c, d)
    ensures DevOnly(a, c, d)
  {
    assert c.devs == a.devs[d := c.devs[d]];
  }

  /** Writes one setting of the device. */
  method WriteConfig(k: Kernel, d: DevPath, dev: Device) returns (e: Err)
    requires d in k.fs.devs
    modifies k
    ensures e in {Ok, Fault}
    ensures DevOnly(old(k.fs), k.fs, d)
    ensures k.fs.devs[d] == if e == Ok then dev else old(k.fs.devs[d])
    ensures !k.flaky ==> e != Fault
  {
    assert k.fs.devs == k.fs.devs[d := k.fs.devs[d]];
    e := k.Read();
    if e != Ok { return e; }
    e := k.WriteDev(d, dev);
  }

  /** The writes to the control file and the write cache of one device, in order. */
  method WriteSettings(k: Kernel, b: Backstore, d: DevPath) returns (e: Err)
    requires d in k.fs.devs
    modifies k
    ensures e in {Ok, Fault}
    ensures d in k.fs.devs && DevOnly(old(k.fs), k.fs, d)
    ensures k.fs.devs[d].serial == old(k.fs.devs[d].serial) && k.fs.devs[d].enabled == old(k.fs.devs[d].enabled)
    ensures DevSet(old(k.fs.devs[d]), b.filePath, b.fileSize) ==> DevSet(k.fs.devs[d], b.filePath, b.fileSize)
    ensures e == Ok ==>
        k.fs.devs[d].file == b.filePath && k.fs.devs[d].size == b.fileSize && k.fs.devs[d].writeCache
    ensures !k.flaky ==> e != Fault
  {
    ghost var f0 := k.fs;
    e := WriteConfig(k, d, k.fs.devs[d].(file := b.filePath));
    ghost var f1 := k.fs;
    if e != Ok { return e; }
    e := WriteConfig(k, d, k.fs.devs[d].(size := b.fileSize));
    ghost var f2 := k.fs;
    DevOnlyTwice(f0, f1, f2, d);
    if e != Ok { return e; }
    e := WriteConfig(k, d, k.fs.devs[d].(writeCache := true));
    DevOnlyTwice(f0, f2, k.fs, d);
  }

  /** A serial is written only when there is none, and a device enabled only when it is not. */
  method EnableDev(k: Kernel, b: Backstore, d: DevPath) returns (e: Err)
    requires d in k.fs.devs && b.name != ""
    modifies k
    ensures e in {Ok, Fault}
    ensures d in k.fs.devs && DevOnly(old(k.fs), k.fs, d)
    ensures k.fs.devs[d] == old(k.fs.devs[d]).(serial := k.fs.devs[d].serial, enabled := k.fs.devs[d].enabled)
    ensures old(k.fs.devs[d].enabled) || e == Ok ==> k.fs.devs[d].enabled
    ensures e == Ok ==>
        k.fs.devs[d].serial == if old(k.fs.devs[d].serial) == "" then b.name else old(k.fs.devs[d].serial)
    ensures k.fs.devs[d].serial == old(k.fs.devs[d].serial) ||
        (old(k.fs.devs[d].serial) == "" && k.fs.devs[d].serial == b.name)
    ensures !k.flaky ==> e != Fault
  {
    ghost var f0 := k.fs;
    assert k.fs.devs == k.fs.devs[d := k.fs.devs[d]];
    e := k.Read();
    if e != Ok { return e; }
    if k.fs.devs[d].serial == "" {
      e := WriteConfig(k, d, k.fs.devs[d].(serial := b.name));
      if e != Ok { return e; }
    }
    ghost var f1 := k.fs;
    e := k.Read();
    if e != Ok { return e; }
    if !k.fs.devs[d].enabled {
      e := WriteConfig(k, d, k.fs.devs[d].(enabled := true));
      DevOnlyTwice(f0, f1, k.fs, d);
    }
  }

  /** Makes the device and writes its settings.  Without a name the path is that of the
      backstore directory, which has no control file: its missing file mode is dereferenced. */
  method UpsertBackstore(k: Kernel, b: Backstore) returns (e: Err)
    requires k.fs.Wf()
    modifies k
    ensures k.fs.Wf()
    ensures BackstorePut(old(k.fs), k.fs, DevOf(b), b.filePath, b.fileSize)
    ensures b.kind != FILEIO ==> e == Unsupported && k.fs == old(k.fs)
    ensures b.kind == FILEIO ==> e in {Ok, Fault, NilDereference}
    ensures e == NilDereference ==> b.name == ""
    ensures e == Ok ==> b.name != ""
    ensures e == Ok ==> DevOf(b) in k.fs.devs && DevSet(k.fs.devs[DevOf(b)], b.filePath, b.fileSize)
    ensures e == Ok ==> SerialSet(old(k.fs), k.fs, DevOf(b))
    ensures !k.flaky ==> e != Fault
  {
    hide HbaName, BackstorePut, DevOnly, DevSet, Fs.Wf;
    if b.kind != FILEIO {
      UntouchedBackstore(k.fs, DevOf(b), b.filePath, b.fileSize);
      return Unsupported;
    }
    var d := DevOf(b);
    ghost var f0 := k.fs;
    e := MkdirHba(k, d.hba);
    ghost var f1 := k.fs;
    BackstoreInSteps(f0, f1, f1, f1, d, b.filePath, b.fileSize);
    if e != Ok { return e; }
    if b.name == "" {
      e := k.Read();
      return if e == Ok then NilDereference else e;
    }
    e := k.MakeDev(d);
    ghost var f2 := k.fs;
    BackstoreInSteps(f0, f1, f2, f2, d, b.filePath, b.fileSize);
    if e != Ok { return e; }
    e := WriteSettings(k, b, d);
    ghost var f3 := k.fs;
    BackstoreInSteps(f0, f1, f2, f3, d, b.filePath, b.fileSize);
    if e != Ok { return e; }
    e := EnableDev(k, b, d);
    EnabledStaysSet(f3, k.fs, d, b.filePath, b.fileSize);
    DevOnlyTwice(f2, f3, k.fs, d);
    BackstoreInSteps(f0, f1, f2, k.fs, d, b.filePath, b.fileSize);
    SetWhenEnabled(k.fs.devs[d], b.filePath, b.fileSize);
  }

  /** The backstore directory, unless it is there. */
  method MkdirHba(k: Kernel, hba: string) returns (e: Err)
    modifies k
    ensures e in {Ok, Fault}
    ensures k.fs == old(k.fs) || k.fs == old(k.fs).(hbas := old(k.fs.hbas) + {hba})
    ensures e == Ok ==> hba in k.fs.hbas
    ensures !k.flaky ==> e != Fault
  {
    e := Ok;
    if hba !in k.fs.hbas { e := k.MakeHba(hba); }
  }

  lemma UntouchedBackstore(a: Fs, d: DevPath, file: string, size: int)
    ensures BackstorePut(a, a, d, file, size)
  {
  }

  /** Directory, device, settings: what any prefix of the steps may have changed. */
  lemma BackstoreInSteps(a: Fs, f1: Fs, f2: Fs, b: Fs, d: DevPath, file: string, size: int)
    requires a.Wf() && (f1 == a || f1 == a.(hbas := a.hbas + {d.hba}))
    requires f2 == f1 || (d.hba in f1.hbas && d.name != "" && d in f2.devs &&
             f2 == f1.(devs := f1.devs[d := f2.devs[d]]))
    requires d in f1.devs ==> f2 == f1
    requires SerialOf(f2, d) == SerialOf(f1, d)
    requires b == f2 || (DevOnly(f2, b, d) && (DevSet(f2.devs[d], file, size) ==> DevSet(b.devs[d], file, size)))
    requires SerialKept(f2, b, d)
    ensures BackstorePut(a, b, d, file, size) && b.Wf()
  {
    hide DevSet;
  }

  lemma SetWhenEnabled(dev: Device, file: string, size: int)
    ensures DevSet(dev, file, size) <==> dev.file == file && dev.size == size && dev.writeCache && dev.enabled
  {
  }

  lemma EnabledStaysSet(a: Fs, b: Fs, d: DevPath, file: string, size: int)
    requires d in a.devs && d in b.devs && (a.devs[d].enabled ==> b.devs[d].enabled)
    requires b.devs[d] == a.devs[d].(serial := b.devs[d].serial, enabled := b.devs[d].enabled)
    ensures DevSet(a.devs[d], file, size) ==> DevSet(b.devs[d], file, size)
  {
  }

  // Disk files.

  /** Grows the file to `size` bytes unless it already has them.  Growing goes through
      `os.Create`, so it starts by emptying the file, and a stat that fails for any reason
      counts as an empty file. */
  method TouchDiskFile(k: Kernel, f: string, size: int) returns (e: Err, newSize: int)
    requires k.fs.Wf()
    modifies k
    ensures k.fs.Wf()
    ensures FileTouched(old(k.fs), k.fs, f, size)
    ensures e in {Ok, NotExist, Fault}
    ensures e == NotExist ==> size <= 0 && f !in old(k.fs.files)
    ensures !k.flaky && size <= 0 && f !in old(k.fs.files) ==> e == NotExist
    ensures e == Ok ==> f in k.fs.files && newSize == k.fs.Length(f) && newSize >= size
    ensures e == Ok && k.fs.Faults(f) == old(k.fs.Faults(f)) && f in old(k.fs.files) && old(k.fs.Length(f)) >= size ==>
        k.fs.files == old(k.fs.files)
    ensures e == Ok && (old(k.fs.Length(f)) < size || k.fs.Faults(f) > old(k.fs.Faults(f))) ==>
        k.fs.files == old(k.fs.files)[f := Zeros(size)]
    ensures !k.flaky ==> e != Fault
  {
    var se, existing := k.Stat(f);
    if existing >= size { return se, existing; }
    newSize := 0;
    e := k.Create(f);
    if e != Ok { return e, newSize; }
    e := k.Fallocate(f, existing, size - existing);
    if e != Ok { return e, newSize; }
    assert k.fs.files[f] == Zeros(size);
    assert k.fs.files == old(k.fs.files)[f := Zeros(size)];
    newSize := size;
    e := k.Read();
  }

  method DeleteDiskFile(k: Kernel, f: string) returns (e: Err)
    requires k.fs.Wf()
    modifies k
    ensures k.fs.Wf()
    ensures e in {Ok, Fault}
    ensures e == Ok ==> k.fs == old(k.fs).(files := old(k.fs.files) - {f})
    ensures e != Ok ==> k.fs == old(k.fs)
    ensures !k.flaky ==> e != Fault
  {
    e := k.Unlink(f);
    if e == NotExist { e := Ok; }
  }

  method SetupLIO(k: Kernel) returns (e: Err)
    requires k.fs.Wf()
    modifies k
    ensures k.fs.Wf()
    ensures e in {Ok, Fault}
    ensures k.fs == old(k.fs) || k.fs == old(k.fs).(root := true)
    ensures e == Ok ==> k.fs.root
    ensures !k.flaky ==> e != Fault
  {
    e := Ok;
    if !k.fs.root {
      e := k.MakeRoot();
    }
  }
}
