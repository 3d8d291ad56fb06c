/** What each kernel helper may have done to the tree by the time it returns, whether or not
    it got to the end: `a` is the tree before the call and `b` the tree after it. */
module Frames {
  import opened Types
  import opened Names
  import opened KernelTree

  function TpgOf(t: Target): TpgPath {
    TpgPath(t.iqn, TpgName(t.id))
  }

  function LunOf(t: Target, lun: u16): LunPath {
    LunPath(TpgOf(t), LunName(lun))
  }

  function DevOf(b: Backstore): DevPath {
    DevPath(HbaName(b.kind, b.id), b.name)
  }

  /** The attributes the server gives every portal group. */
  const EXPORTED := TpgAttrs(true, false, true, false)

  // What the listings report.

  ghost predicate Listed(fs: Fs, base: string, p: TpgPath) {
    p in fs.tpgs && Ours(base, p.iqn) && ParseTpg(p.tpg).Num?
  }

  function TargetAt(base: string, p: TpgPath): Target
    requires Ours(base, p.iqn) && ParseTpg(p.tpg).Num?
  {
    Target(ParseTpg(p.tpg).id, PoolNameOf(base, p.iqn), p.iqn)
  }

  /** `t` is what the listing makes of some portal group. */
  ghost predicate TargetListed(fs: Fs, base: string, t: Target) {
    exists p :: Listed(fs, base, p) && t == TargetAt(base, p)
  }

  ghost predicate LunListed(fs: Fs, p: TpgPath, id: u16) {
    exists l :: l in fs.luns && l.tpg == p && ParseLun(l.lun) == Num(id)
  }

  ghost predicate ListedDev(fs: Fs, d: DevPath) {
    d in fs.devs && ParseHba(d.hba).Hba?
  }

  function BackstoreAt(d: DevPath): Backstore
    requires ParseHba(d.hba).Hba?
  {
    Backstore(ParseHba(d.hba).kind, ParseHba(d.hba).id, d.name, "", 0)
  }

  /** `b` is what the listing makes of some data directory. */
  ghost predicate BackstoreListed(fs: Fs, b: Backstore) {
    exists d :: ListedDev(fs, d) && b == BackstoreAt(d)
  }

  /** The listing has an entry for one of the data directories in `hba`. */
  ghost predicate Covered(fs: Fs, backstores: seq<Backstore>, hba: string) {
    exists d :: ListedDev(fs, d) && d.hba == hba && BackstoreAt(d) in backstores
  }

  // What keeps a listing from being made.

  /** A portal group under the base name has a number that does not parse. */
  ghost predicate BadTargets(fs: Fs, base: string) {
    exists p :: p in fs.tpgs && Ours(base, p.iqn) && ParseTpg(p.tpg).Bad?
  }

  ghost predicate BadLuns(fs: Fs, p: TpgPath) {
    exists l :: l in fs.luns && l.tpg == p && ParseLun(l.lun).Bad?
  }

  ghost predicate BadHbas(fs: Fs) {
    exists h :: h in fs.hbas && ParseHba(h).BadHba?
  }

  // Removals.

  ghost predicate LinksCut(a: map<LinkPath, DevPath>, b: map<LinkPath, DevPath>) {
    b.Keys <= a.Keys && forall x | x in b :: b[x] == a[x]
  }

  /** Only the LUN `l` and links in it were removed. */
  ghost predicate LunCut(a: Fs, b: Fs, l: LunPath) {
    && b == a.(luns := b.luns, links := b.links)
    && (b.luns == a.luns || b.luns == a.luns - {l})
    && LinksCut(a.links, b.links)
    && (forall x | x in a.links && x !in b.links :: x.lun == l)
  }

  /** Only the portal group `p`, what is in it, and its target directory were removed. */
  ghost predicate TargetCut(a: Fs, b: Fs, p: TpgPath) {
    && b == a.(root := b.root, iqns := b.iqns, tpgs := b.tpgs, portals := b.portals, luns := b.luns, links := b.links)
    && (b.root == a.root || (p.iqn == "" && !b.root))
    && (b.iqns == a.iqns || b.iqns == a.iqns - {p.iqn})
    && (b.tpgs == a.tpgs || b.tpgs == a.tpgs - {p})
    && b.portals <= a.portals
    && (forall x | x in a.portals && x !in b.portals :: x.tpg == p)
    && b.luns <= a.luns
    && (forall l | l in a.luns && l !in b.luns :: l.tpg == p)
    && LinksCut(a.links, b.links)
    && (forall x | x in a.links && x !in b.links :: x.lun.tpg == p)
  }

  /** Only the backstore directory `hba` and what is in it were removed. */
  ghost predicate HbaCut(a: Fs, b: Fs, hba: string) {
    && b == a.(hbas := b.hbas, devs := b.devs)
    && (b.hbas == a.hbas || b.hbas == a.hbas - {hba})
    && b.devs.Keys <= a.devs.Keys
    && (forall d | d in b.devs :: b.devs[d] == a.devs[d])
    && (forall d | d in a.devs && d !in b.devs :: d.hba == hba)
  }

  // What stands in the way of a removal.

  /** The names of the LUNs in `p` are ones the server writes. */
  ghost predicate LegibleLuns(fs: Fs, p: TpgPath) {
    forall l | l in fs.luns && l.tpg == p :: CanonLun(l.lun)
  }

  /** No other portal group shares the target directory of `p`. */
  ghost predicate AloneInIqn(fs: Fs, p: TpgPath) {
    forall q | q in fs.tpgs && q.iqn == p.iqn :: q == p
  }

  /** No LUN but `l` links to a backstore in `hba`. */
  ghost predicate OnlyLinksFrom(fs: Fs, hba: string, l: LunPath) {
    forall x | x in fs.links && fs.links[x].hba == hba :: x.lun == l
  }

  // Additions.

  /** Only the portal group `p` was created or changed, besides the directories above it. */
  ghost predicate TargetPut(a: Fs, b: Fs, p: TpgPath) {
    && b == a.(root := b.root, iqns := b.iqns, tpgs := b.tpgs)
    && (a.root ==> b.root)
    && (b.iqns == a.iqns || b.iqns == a.iqns + {p.iqn})
    && (b.tpgs == a.tpgs || (p in b.tpgs && b.tpgs == a.tpgs[p := b.tpgs[p]]))
    && (p in a.tpgs && a.tpgs[p] == EXPORTED ==> b.tpgs == a.tpgs)
  }

  /** Only the directories down to the portal `x` were created. */
  ghost predicate PortalPut(a: Fs, b: Fs, x: PortalPath) {
    && b == a.(root := b.root, iqns := b.iqns, tpgs := b.tpgs, portals := b.portals)
    && TargetPut(a, b.(portals := a.portals), x.tpg)
    && (x.tpg in a.tpgs ==> b.tpgs == a.tpgs && b.iqns == a.iqns)
    && (b.portals == a.portals || b.portals == a.portals + {x})
  }

  /** Only the directories down to the LUN `x.lun` and the link `x` were created. */
  ghost predicate LunPut(a: Fs, b: Fs, x: LinkPath, d: DevPath) {
    && b == a.(root := b.root, iqns := b.iqns, tpgs := b.tpgs, luns := b.luns, links := b.links)
    && TargetPut(a, b.(luns := a.luns, links := a.links), x.lun.tpg)
    && (x.lun.tpg in a.tpgs ==> b.tpgs == a.tpgs && b.iqns == a.iqns && b.root == a.root)
    && (b.luns == a.luns || b.luns == a.luns + {x.lun})
    && (b.links == a.links || (x !in a.links && b.links == a.links[x := d]))
  }

  /** The device carries what the server wants of it. */
  predicate DevSet(dev: Device, file: string, size: int) {
    dev.file == file && dev.size == size && dev.writeCache && dev.enabled
  }

  /** The device's unit serial, empty while it has none. */
  function SerialOf(fs: Fs, d: DevPath): string {
    if d in fs.devs then fs.devs[d].serial else ""
  }

  /** A device keeps the serial it has; the one it is given is its name. */
  predicate SerialKept(a: Fs, b: Fs, d: DevPath) {
    SerialOf(b, d) == SerialOf(a, d) || (SerialOf(a, d) == "" && SerialOf(b, d) == d.name)
  }

  /** The device has its serial: the one it had before, or else its name. */
  predicate SerialSet(a: Fs, b: Fs, d: DevPath) {
    d in b.devs && SerialOf(b, d) == if SerialOf(a, d) != "" then SerialOf(a, d) else d.name
  }

  /** Only the backstore `d` was created or changed, besides the directory above it. */
  ghost predicate BackstorePut(a: Fs, b: Fs, d: DevPath, file: string, size: int) {
    && b == a.(hbas := b.hbas, devs := b.devs)
    && (b.hbas == a.hbas || b.hbas == a.hbas + {d.hba})
    && (b.devs == a.devs || (d in b.devs && b.devs == a.devs[d := b.devs[d]]))
    && (d in a.devs && DevSet(a.devs[d], file, size) ==> DevSet(b.devs[d], file, size))
    && SerialKept(a, b, d)
  }

  /** Only the disk file `f` was touched.  It keeps its bytes when it already had `size`
      bytes and its stat was answered; otherwise it may have been emptied or replaced by zeros. */
  ghost predicate FileTouched(a: Fs, b: Fs, f: string, size: int) {
    && b == a.(files := b.files, statFaults := b.statFaults)
    && (b.statFaults == a.statFaults || b.statFaults == a.statFaults[f := a.Faults(f) + 1])
    && (|| b.files == a.files
        || (&& f in b.files
            && b.files == a.files[f := b.files[f]]
            && (a.Length(f) < size || a.Faults(f) < b.Faults(f))
            && (b.files[f] == [] || b.files[f] == Zeros(size))))
  }
}
