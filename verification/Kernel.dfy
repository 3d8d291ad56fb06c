/** The machine below the server: the LIO configfs tree and the disk files, as one tree of
    paths, changed one system call at a time.  On a flaky machine every call may fail by `Fault`
    and then changes nothing; the other errors come exactly from the state of the tree. */
module KernelTree {
  import opened Types

  datatype TpgPath = TpgPath(iqn: string, tpg: string)
  datatype PortalPath = PortalPath(tpg: TpgPath, portal: string)
  datatype LunPath = LunPath(tpg: TpgPath, lun: string)
  datatype LinkPath = LinkPath(lun: LunPath, name: string)
  datatype DevPath = DevPath(hba: string, name: string)

  datatype TpgAttr = Enable | Authentication | GenerateNodeAcls | DemoModeWriteProtect

  datatype TpgAttrs = TpgAttrs(
    enable: bool, authentication: bool, generateNodeAcls: bool, demoModeWriteProtect: bool)
  {
    function Get(a: TpgAttr): bool {
      match a
      case Enable => enable
      case Authentication => authentication
      case GenerateNodeAcls => generateNodeAcls
      case DemoModeWriteProtect => demoModeWriteProtect
    }

    function Set(a: TpgAttr, v: bool): TpgAttrs {
      match a
      case Enable => this.(enable := v)
      case Authentication => this.(authentication := v)
      case GenerateNodeAcls => this.(generateNodeAcls := v)
      case DemoModeWriteProtect => this.(demoModeWriteProtect := v)
    }
  }

  /** What a backstore directory holds: the backing file and size last written to its
      control file, and its attributes. */
  datatype Device = Device(file: string, size: int, writeCache: bool, serial: string, enabled: bool)

  datatype Fs = Fs(
    root: bool,                          // target/iscsi exists
    iqns: set<string>,                   // target/iscsi/<iqn>
    tpgs: map<TpgPath, TpgAttrs>,        // target/iscsi/<iqn>/<tpg>
    portals: set<PortalPath>,            // .../np/<portal>
    luns: set<LunPath>,                  // .../lun/<lun>
    links: map<LinkPath, DevPath>,       // .../lun/<lun>/<name>, a symlink to a backstore
    hbas: set<string>,                   // target/core/<hba>
    devs: map<DevPath, Device>,          // target/core/<hba>/<name>
    files: map<string, seq<byte>>,       // disk files
    statFaults: map<string, nat>)        // how often a stat of a disk file has failed by Fault
  {
    /** A tree: every entry's parent exists, and a link's destination exists (configfs
        refuses to remove it).  No target or backstore directory has an empty name. */
    predicate Wf() {
      && (!root ==> iqns == {})
      && "" !in iqns
      && (forall p | p in tpgs :: p.iqn in iqns)
      && (forall x | x in portals :: x.tpg in tpgs)
      && (forall l | l in luns :: l.tpg in tpgs)
      && (forall x | x in links :: x.lun in luns && links[x] in devs)
      && (forall d | d in devs :: d.hba in hbas && d.name != "")
    }

    function Length(f: string): nat {
      if f in files then |files[f]| else 0
    }

    function Faults(f: string): nat {
      if f in statFaults then statFaults[f] else 0
    }
  }

  function Zeros(n: int): seq<byte> {
    if n <= 0 then [] else seq(n, _ => 0)
  }

  class Kernel {
    var fs: Fs
    const flaky: bool

    constructor (fs: Fs, flaky: bool)
      ensures this.fs == fs && this.flaky == flaky
    {
      this.fs := fs;
      this.flaky := flaky;
    }

    /** What anyone else may do to the machine: it is another tree afterwards. */
    method Drift()
      requires fs.Wf()
      modifies this
      ensures fs.Wf()
    {
      var next: Fs := *;
      if next.Wf() { fs := next; }
    }

    // Directory reads.  The order of a listing is arbitrary.

    static method Enumerate<T(==)>(s: set<T>) returns (q: seq<T>)
      ensures forall x :: x in q <==> x in s
      ensures forall i, j | 0 <= i < j < |q| :: q[i] != q[j]
    {
      q := [];
      var todo := s;
      while todo != {}
        invariant todo <= s
        invariant forall x :: x in q <==> x in s && x !in todo
        invariant forall i, j | 0 <= i < j < |q| :: q[i] != q[j]
        decreases todo
      {
        var x :| x in todo;
        q := q + [x];
        todo := todo - {x};
      }
    }

    method ReadRoot() returns (e: Err, names: seq<string>)
      ensures e != Ok ==> names == []
      ensures e == Ok || (e == NotExist && !fs.root) || e == Fault
      ensures e == Ok ==> forall x :: x in names <==> x in fs.iqns
      ensures !flaky ==> e != Fault
    {
      names := [];
      if flaky { if * { return Fault, names; } }
      if !fs.root { return NotExist, names; }
      e := Ok;
      names := Enumerate(fs.iqns);
    }

    method ReadIqn(iqn: string) returns (e: Err, names: seq<string>)
      ensures e != Ok ==> names == []
      ensures e == Ok || (e == NotExist && iqn !in fs.iqns) || e == Fault
      ensures e == Ok ==> forall x :: x in names <==> TpgPath(iqn, x) in fs.tpgs
      ensures !flaky ==> e != Fault
    {
      names := [];
      if flaky { if * { return Fault, names; } }
      if iqn !in fs.iqns { return NotExist, names; }
      e := Ok;
      names := Enumerate(set p | p in fs.tpgs && p.iqn == iqn :: p.tpg);
      assert forall x :: TpgPath(iqn, x) in fs.tpgs ==> TpgPath(iqn, x).tpg == x;
    }

    method ReadPortals(p: TpgPath) returns (e: Err, names: seq<string>)
      ensures e != Ok ==> names == []
      ensures e == Ok || (e == NotExist && p !in fs.tpgs) || e == Fault
      ensures e == Ok ==> forall x :: x in names <==> PortalPath(p, x) in fs.portals
      ensures !flaky ==> e != Fault
    {
      names := [];
      if flaky { if * { return Fault, names; } }
      if p !in fs.tpgs { return NotExist, names; }
      e := Ok;
      names := Enumerate(set x | x in fs.portals && x.tpg == p :: x.portal);
      assert forall x :: PortalPath(p, x) in fs.portals ==> PortalPath(p, x).portal == x;
    }

    method ReadLuns(p: TpgPath) returns (e: Err, names: seq<string>)
      ensures e != Ok ==> names == []
      ensures e == Ok || (e == NotExist && p !in fs.tpgs) || e == Fault
      ensures e == Ok ==> forall x :: x in names <==> LunPath(p, x) in fs.luns
      ensures !flaky ==> e != Fault
    {
      names := [];
      if flaky { if * { return Fault, names; } }
      if p !in fs.tpgs { return NotExist, names; }
      e := Ok;
      names := Enumerate(set x | x in fs.luns && x.tpg == p :: x.lun);
      assert forall x :: LunPath(p, x) in fs.luns ==> LunPath(p, x).lun == x;
    }

    method ReadLinks(l: LunPath) returns (e: Err, names: seq<string>)
      ensures e != Ok ==> names == []
      ensures e == Ok || (e == NotExist && l !in fs.luns) || e == Fault
      ensures e == Ok ==> forall x :: x in names <==> LinkPath(l, x) in fs.links
      ensures e == Ok ==> forall i, j | 0 <= i < j < |names| :: names[i] != names[j]
      ensures !flaky ==> e != Fault
    {
      names := [];
      if flaky { if * { return Fault, names; } }
      if l !in fs.luns { return NotExist, names; }
      e := Ok;
      names := Enumerate(set x | x in fs.links && x.lun == l :: x.name);
      assert forall x :: LinkPath(l, x) in fs.links ==> LinkPath(l, x).name == x;
    }

    method ReadCore() returns (e: Err, names: seq<string>)
      ensures e != Ok ==> names == []
      ensures e == Ok || e == Fault
      ensures e == Ok ==> forall x :: x in names <==> x in fs.hbas
      ensures !flaky ==> e != Fault
    {
      names := [];
      if flaky { if * { return Fault, names; } }
      e := Ok;
      names := Enumerate(fs.hbas);
    }

    method ReadHba(hba: string) returns (e: Err, names: seq<string>)
      ensures e != Ok ==> names == []
      ensures e == Ok || (e == NotExist && hba !in fs.hbas) || e == Fault
      ensures e == Ok ==> forall x :: x in names <==> DevPath(hba, x) in fs.devs
      ensures !flaky ==> e != Fault
    {
      names := [];
      if flaky { if * { return Fault, names; } }
      if hba !in fs.hbas { return NotExist, names; }
      e := Ok;
      names := Enumerate(set d | d in fs.devs && d.hba == hba :: d.name);
      assert forall x :: DevPath(hba, x) in fs.devs ==> DevPath(hba, x).name == x;
    }

    // Making directories and links.

    method MakeRoot() returns (e: Err)
      modifies this
      ensures e == Ok ==> fs == old(fs).(root := true)
      ensures e != Ok ==> e == Fault && fs == old(fs)
      ensures !flaky ==> e != Fault
    {
      if flaky { if * { return Fault; } }
      fs := fs.(root := true);
      e := Ok;
    }

    method MakeIqn(iqn: string) returns (e: Err)
      requires iqn != ""
      modifies this
      ensures e == Ok ==> old(fs.root) && fs == old(fs).(iqns := old(fs.iqns) + {iqn})
      ensures e != Ok ==> fs == old(fs) && (e == Fault || (e == NotExist && !fs.root))
      ensures !flaky ==> e != Fault
    {
      if flaky { if * { return Fault; } }
      if !fs.root { return NotExist; }
      fs := fs.(iqns := fs.iqns + {iqn});
      e := Ok;
    }

    /** A new portal group's attributes are whatever the kernel's defaults are. */
    method MakeTpg(p: TpgPath) returns (e: Err)
      modifies this
      ensures e == Ok ==> p.iqn in old(fs.iqns) && p in fs.tpgs
      ensures e == Ok ==> fs == old(fs).(tpgs := old(fs.tpgs)[p := fs.tpgs[p]])
      ensures e == Ok && p in old(fs.tpgs) ==> fs == old(fs)
      ensures e != Ok ==> fs == old(fs) && (e == Fault || (e == NotExist && p.iqn !in fs.iqns))
      ensures !flaky ==> e != Fault
    {
      if flaky { if * { return Fault; } }
      if p.iqn !in fs.iqns { return NotExist; }
      e := Ok;
      if p !in fs.tpgs {
        var defaults: TpgAttrs := *;
        fs := fs.(tpgs := fs.tpgs[p := defaults]);
      }
      assert fs.tpgs == old(fs.tpgs)[p := fs.tpgs[p]];
    }

    method MakePortal(x: PortalPath) returns (e: Err)
      modifies this
      ensures e == Ok ==> x.tpg in old(fs.tpgs) && fs == old(fs).(portals := old(fs.portals) + {x})
      ensures e != Ok ==> fs == old(fs) && (e == Fault || (e == NotExist && x.tpg !in fs.tpgs))
      ensures !flaky ==> e != Fault
    {
      if flaky { if * { return Fault; } }
      if x.tpg !in fs.tpgs { return NotExist; }
      fs := fs.(portals := fs.portals + {x});
      e := Ok;
    }

    method MakeLun(l: LunPath) returns (e: Err)
      modifies this
      ensures e == Ok ==> l.tpg in old(fs.tpgs) && fs == old(fs).(luns := old(fs.luns) + {l})
      ensures e != Ok ==> fs == old(fs) && (e == Fault || (e == NotExist && l.tpg !in fs.tpgs))
      ensures !flaky ==> e != Fault
    {
      if flaky { if * { return Fault; } }
      if l.tpg !in fs.tpgs { return NotExist; }
      fs := fs.(luns := fs.luns + {l});
      e := Ok;
    }

    method Symlink(dest: DevPath, x: LinkPath) returns (e: Err)
      modifies this
      ensures e == Ok ==> x.lun in fs.luns && dest in fs.devs && x !in old(fs.links)
      ensures e == Ok ==> fs == old(fs).(links := old(fs.links)[x := dest])
      ensures e != Ok ==> fs == old(fs)
      ensures e == Exist ==> x in fs.links
      ensures e == NotExist ==> x.lun !in fs.luns || dest !in fs.devs
      ensures e in {Ok, Exist, NotExist, Fault}
      ensures !flaky ==> e != Fault
    {
      if flaky { if * { return Fault; } }
      if x in fs.links { return Exist; }
      if x.lun !in fs.luns || dest !in fs.devs { return NotExist; }
      fs := fs.(links := fs.links[x := dest]);
      e := Ok;
    }

    method MakeHba(hba: string) returns (e: Err)
      modifies this
      ensures e == Ok ==> fs == old(fs).(hbas := old(fs.hbas) + {hba})
      ensures e != Ok ==> e == Fault && fs == old(fs)
      ensures !flaky ==> e != Fault
    {
      if flaky { if * { return Fault; } }
      fs := fs.(hbas := fs.hbas + {hba});
      e := Ok;
    }

    /** A new device has no serial; its other settings are whatever the kernel's defaults are. */
    method MakeDev(d: DevPath) returns (e: Err)
      modifies this
      ensures e == Ok ==> d.hba in old(fs.hbas) && d in fs.devs
      ensures e == Ok ==> fs == old(fs).(devs := old(fs.devs)[d := fs.devs[d]])
      ensures e == Ok ==> if d in old(fs.devs) then fs == old(fs) else fs.devs[d].serial == ""
      ensures e != Ok ==> fs == old(fs) && (e == Fault || (e == NotExist && d.hba !in fs.hbas))
      ensures !flaky ==> e != Fault
    {
      if flaky { if * { return Fault; } }
      if d.hba !in fs.hbas { return NotExist; }
      e := Ok;
      if d !in fs.devs {
        var defaults: Device := *;
        fs := fs.(devs := fs.devs[d := defaults.(serial := "")]);
      }
      assert fs.devs == old(fs.devs)[d := fs.devs[d]];
    }

    // Attribute writes.

    method WriteTpgAttr(p: TpgPath, a: TpgAttr, v: bool) returns (e: Err)
      requires p in fs.tpgs
      modifies this
      ensures e == Ok ==> fs == old(fs).(tpgs := old(fs.tpgs)[p := old(fs.tpgs[p]).Set(a, v)])
      ensures e != Ok ==> e == Fault && fs == old(fs)
      ensures !flaky ==> e != Fault
    {
      if flaky { if * { return Fault; } }
      fs := fs.(tpgs := fs.tpgs[p := fs.tpgs[p].Set(a, v)]);
      e := Ok;
    }

    method WriteDev(d: DevPath, dev: Device) returns (e: Err)
      requires d in fs.devs
      modifies this
      ensures e == Ok ==> fs == old(fs).(devs := old(fs.devs)[d := dev])
      ensures e != Ok ==> e == Fault && fs == old(fs)
      ensures !flaky ==> e != Fault
    {
      if flaky { if * { return Fault; } }
      fs := fs.(devs := fs.devs[d := dev]);
      e := Ok;
    }

    /** A read of an attribute: nothing changes, and it may fail. */
    method Read() returns (e: Err)
      ensures e == Ok || e == Fault
      ensures !flaky ==> e != Fault
    {
      if flaky { if * { return Fault; } }
      e := Ok;
    }

    // Removal.

    method RemoveLink(x: LinkPath) returns (e: Err)
      modifies this
      ensures e == Ok ==> x in old(fs.links) && fs == old(fs).(links := old(fs.links) - {x})
      ensures e != Ok ==> fs == old(fs) && (e == Fault || (e == NotExist && x !in fs.links))
      ensures !flaky ==> e != Fault
    {
      if flaky { if * { return Fault; } }
      if x !in fs.links { return NotExist; }
      fs := fs.(links := fs.links - {x});
      e := Ok;
    }

    method RemoveLun(l: LunPath) returns (e: Err)
      modifies this
      ensures e == Ok ==> l in old(fs.luns) && !(exists x :: x in old(fs.links) && x.lun == l)
      ensures e == Ok ==> fs == old(fs).(luns := old(fs.luns) - {l})
      ensures e != Ok ==> fs == old(fs)
      ensures e == NotExist ==> l !in fs.luns
      ensures e == Busy ==> l in fs.luns && exists x :: x in fs.links && x.lun == l
      ensures e in {Ok, NotExist, Busy, Fault}
      ensures !flaky ==> e != Fault
    {
      if flaky { if * { return Fault; } }
      if l !in fs.luns { return NotExist; }
      if exists x | x in fs.links :: x.lun == l { return Busy; }
      fs := fs.(luns := fs.luns - {l});
      e := Ok;
    }

    method RemovePortal(x: PortalPath) returns (e: Err)
      modifies this
      ensures e == Ok ==> x in old(fs.portals) && fs == old(fs).(portals := old(fs.portals) - {x})
      ensures e != Ok ==> fs == old(fs) && (e == Fault || (e == NotExist && x !in fs.portals))
      ensures !flaky ==> e != Fault
    {
      if flaky { if * { return Fault; } }
      if x !in fs.portals { return NotExist; }
      fs := fs.(portals := fs.portals - {x});
      e := Ok;
    }

    method RemoveTpg(p: TpgPath) returns (e: Err)
      modifies this
      ensures e == Ok ==> p in old(fs.tpgs) && fs == old(fs).(tpgs := old(fs.tpgs) - {p})
      ensures e == Ok ==> (forall x | x in fs.portals :: x.tpg != p) && (forall l | l in fs.luns :: l.tpg != p)
      ensures e != Ok ==> fs == old(fs)
      ensures e == NotExist ==> p !in fs.tpgs
      ensures e == Busy ==> (exists x :: x in fs.portals && x.tpg == p) || (exists l :: l in fs.luns && l.tpg == p)
      ensures e in {Ok, NotExist, Busy, Fault}
      ensures !flaky ==> e != Fault
    {
      if flaky { if * { return Fault; } }
      if p !in fs.tpgs { return NotExist; }
      if exists x | x in fs.portals :: x.tpg == p { return Busy; }
      if exists l | l in fs.luns :: l.tpg == p { return Busy; }
      fs := fs.(tpgs := fs.tpgs - {p});
      e := Ok;
    }

    /** Removes `target/iscsi/<iqn>`; with an empty name the path is `target/iscsi` itself. */
    method RemoveIqn(iqn: string) returns (e: Err)
      modifies this
      ensures e == Ok && iqn != "" ==> iqn in old(fs.iqns) && fs == old(fs).(iqns := old(fs.iqns) - {iqn})
      ensures e == Ok && iqn != "" ==> forall p | p in fs.tpgs :: p.iqn != iqn
      ensures e == Ok && iqn == "" ==> old(fs.root) && fs.iqns == {} && fs == old(fs).(root := false)
      ensures e != Ok ==> fs == old(fs)
      ensures e == NotExist ==> if iqn == "" then !fs.root else iqn !in fs.iqns
      ensures e == Busy ==> if iqn == "" then fs.iqns != {} else exists p :: p in fs.tpgs && p.iqn == iqn
      ensures e in {Ok, NotExist, Busy, Fault}
      ensures !flaky ==> e != Fault
    {
      if flaky { if * { return Fault; } }
      if iqn == "" {
        if !fs.root { return NotExist; }
        if fs.iqns != {} { return Busy; }
        fs := fs.(root := false);
        return Ok;
      }
      if iqn !in fs.iqns { return NotExist; }
      if exists p | p in fs.tpgs :: p.iqn == iqn { return Busy; }
      fs := fs.(iqns := fs.iqns - {iqn});
      e := Ok;
    }

    method RemoveDev(d: DevPath) returns (e: Err)
      modifies this
      ensures e == Ok ==> d in old(fs.devs) && fs == old(fs).(devs := old(fs.devs) - {d})
      ensures e == Ok ==> forall x | x in fs.links :: fs.links[x] != d
      ensures e != Ok ==> fs == old(fs)
      ensures e == NotExist ==> d !in fs.devs
      ensures e == Busy ==> exists x :: x in fs.links && fs.links[x] == d
      ensures e in {Ok, NotExist, Busy, Fault}
      ensures !flaky ==> e != Fault
    {
      if flaky { if * { return Fault; } }
      if d !in fs.devs { return NotExist; }
      if exists x | x in fs.links :: fs.links[x] == d { return Busy; }
      fs := fs.(devs := fs.devs - {d});
      e := Ok;
    }

    method RemoveHba(hba: string) returns (e: Err)
      modifies this
      ensures e == Ok ==> hba in old(fs.hbas) && fs == old(fs).(hbas := old(fs.hbas) - {hba})
      ensures e == Ok ==> forall d | d in fs.devs :: d.hba != hba
      ensures e != Ok ==> fs == old(fs)
      ensures e == NotExist ==> hba !in fs.hbas
      ensures e == Busy ==> exists d :: d in fs.devs && d.hba == hba
      ensures e in {Ok, NotExist, Busy, Fault}
      ensures !flaky ==> e != Fault
    {
      if flaky { if * { return Fault; } }
      if hba !in fs.hbas { return NotExist; }
      if exists d | d in fs.devs :: d.hba == hba { return Busy; }
      fs := fs.(hbas := fs.hbas - {hba});
      e := Ok;
    }

    // Disk files.

    method Stat(f: string) returns (e: Err, size: nat)
      modifies this
      ensures e == Ok ==> fs == old(fs) && f in fs.files && size == |fs.files[f]|
      ensures e == NotExist ==> fs == old(fs) && f !in fs.files
      ensures e == Fault ==> fs == old(fs).(statFaults := old(fs.statFaults)[f := old(fs.Faults(f)) + 1])
      ensures e in {Ok, NotExist, Fault} && (e != Ok ==> size == 0)
      ensures !flaky ==> e != Fault
    {
      size := 0;
      if flaky {
        if * {
          fs := fs.(statFaults := fs.statFaults[f := fs.Faults(f) + 1]);
          return Fault, size;
        }
      }
      if f !in fs.files { return NotExist, size; }
      return Ok, |fs.files[f]|;
    }

    /** `os.Create`: makes the file, or empties it when it is there. */
    method Create(f: string) returns (e: Err)
      modifies this
      ensures e == Ok ==> fs == old(fs).(files := old(fs.files)[f := []])
      ensures e != Ok ==> e == Fault && fs == old(fs)
      ensures !flaky ==> e != Fault
    {
      if flaky { if * { return Fault; } }
      fs := fs.(files := fs.files[f := []]);
      e := Ok;
    }

    /** `fallocate` in its default mode: the file reaches at least `offset + length`, zero-filled. */
    method Fallocate(f: string, offset: nat, length: nat) returns (e: Err)
      requires f in fs.files
      modifies this
      ensures e == Ok ==>
          fs == old(fs).(files := old(fs.files)[f := old(fs.files[f]) + Zeros(offset + length - |old(fs.files[f])|)])
      ensures e != Ok ==> e == Fault && fs == old(fs)
      ensures !flaky ==> e != Fault
    {
      if flaky { if * { return Fault; } }
      fs := fs.(files := fs.files[f := fs.files[f] + Zeros(offset + length - |fs.files[f]|)]);
      e := Ok;
    }

    method Unlink(f: string) returns (e: Err)
      modifies this
      ensures e == Ok ==> f in old(fs.files) && fs == old(fs).(files := old(fs.files) - {f})
      ensures e != Ok ==> fs == old(fs) && (e == Fault || (e == NotExist && f !in fs.files))
      ensures !flaky ==> e != Fault
    {
      if flaky { if * { return Fault; } }
      if f !in fs.files { return NotExist; }
      fs := fs.(files := fs.files - {f});
      e := Ok;
    }
  }
}
