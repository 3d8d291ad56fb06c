/** Each helper call a reconcile makes is a step toward the goal. */
module Steps {
  import opened Types
  import opened Names
  import opened KernelTree
  import opened Frames
  import opened Convergence

  /** Only the iscsi side of the tree may have changed. */
  ghost predicate SameStorage(a: Fs, b: Fs) {
    b.hbas == a.hbas && b.devs == a.devs && b.files == a.files && b.statFaults == a.statFaults
  }

  lemma StorageStep(a: Fs, b: Fs, g: Goal)
    requires SameStorage(a, b)
    ensures TowardDevs(a, b, g) && forall f :: TowardFile(a, b, g, f)
  {
    assert forall d | d in g.devs && DevGood(a, g, d) :: DevGood(b, g, d);
  }

  /** Only the storage side may have changed. */
  ghost predicate SameExports(a: Fs, b: Fs) {
    b.iqns == a.iqns && b.tpgs == a.tpgs && b.portals == a.portals && b.luns == a.luns && b.links == a.links
  }

  lemma ExportsStep(a: Fs, b: Fs, g: Goal)
    requires SameExports(a, b)
    ensures TowardTargets(a, b, g) && TowardLuns(a, b, g)
  {
  }

  lemma RootStep(a: Fs, b: Fs, g: Goal)
    requires b == a || b == a.(root := true)
    ensures Toward(a, b, g)
  {
    StorageStep(a, b, g);
    ExportsStep(a, b, g);
  }

  lemma DeadTargetStep(a: Fs, b: Fs, g: Goal, p: TpgPath)
    requires g.Closed() && TargetCut(a, b, p)
    requires Ours(g.base, p.iqn) && p !in g.tpgs && p.iqn != ""
    ensures Toward(a, b, g)
  {
    StorageStep(a, b, g);
  }

  lemma LiveTargetStep(a: Fs, b: Fs, g: Goal, p: TpgPath)
    requires NoDeadTargets(a, g) && TargetPut(a, b, p) && p in g.tpgs
    ensures Toward(a, b, g) && NoDeadTargets(b, g)
  {
    StorageStep(a, b, g);
  }

  lemma StalePortalStep(a: Fs, b: Fs, g: Goal, x: PortalPath)
    requires Ours(g.base, x.tpg.iqn) && !g.WantsPortal(x)
    requires b == a || b == a.(portals := a.portals - {x})
    ensures Toward(a, b, g)
  {
    StorageStep(a, b, g);
  }

  lemma PortalStep(a: Fs, b: Fs, g: Goal, x: PortalPath)
    requires PortalPut(a, b, x) && x.tpg in a.tpgs && g.WantsPortal(x)
    ensures Toward(a, b, g)
    ensures b.tpgs == a.tpgs && (b.portals == a.portals || b.portals == a.portals + {x})
  {
    StorageStep(a, b, g);
  }

  lemma DeadLunStep(a: Fs, b: Fs, g: Goal, l: LunPath)
    requires LunCut(a, b, l) && Ours(g.base, l.tpg.iqn) && l !in g.luns
    ensures Toward(a, b, g)
  {
    StorageStep(a, b, g);
  }

  lemma FileStep(a: Fs, b: Fs, g: Goal, f: string)
    requires g.Closed() && f in g.floors && FileTouched(a, b, f, g.floors[f])
    ensures Toward(a, b, g)
    ensures forall d | d in g.devs && g.devs[d] != f && DevGood(a, g, d) :: DevGood(b, g, d)
  {
    ExportsStep(a, b, g);
    forall d | d in g.devs && DevGood(a, g, d) && a.Faults(g.devs[d]) == b.Faults(g.devs[d]) ensures DevGood(b, g, d) {
      if g.devs[d] == f {
        assert b.files == a.files;
      }
    }
  }

  lemma BackstoreStep(a: Fs, b: Fs, g: Goal, d: DevPath)
    requires d in g.devs && CanonHba(d.hba)
    requires BackstorePut(a, b, d, g.devs[d], a.Length(g.devs[d]))
    ensures Toward(a, b, g)
    ensures forall c | c in g.devs && DevGood(a, g, c) :: DevGood(b, g, c)
  {
    hide CanonHba, ParseHba, TowardTargets, TowardLuns;
    ExportsStep(a, b, g);
  }

  lemma LunStep(a: Fs, b: Fs, g: Goal, x: LinkPath, d: DevPath)
    requires LunPut(a, b, x, d) && x.lun.tpg in a.tpgs && g.WantsLink(x, d)
    ensures Toward(a, b, g)
  {
    StorageStep(a, b, g);
  }

  lemma DeadBackstoreStep(a: Fs, b: Fs, g: Goal, hba: string)
    requires HbaCut(a, b, hba) && ParseHba(hba).Hba? && forall d | d in g.devs :: d.hba != hba
    ensures Toward(a, b, g)
    ensures forall c | c in g.devs && DevGood(a, g, c) :: DevGood(b, g, c)
  {
    ExportsStep(a, b, g);
  }
}
