/** The Kubernetes provisioner: it finds or makes a pool for a claim's storage class, makes a
    volume in it, and writes ids as decimal annotations that a later delete reads back. */
module K8sProvisioner {
  import opened Types
  import opened Names
  import opened KernelTree
  import opened Frames
  import opened Registry
  import opened Outcomes
  import opened Recovery
  import opened SigmaServer
  import Guarantees
  import Runs

  const ANNOTATION_IQN := "shortrack.sapslaj.xyz/iqn"
  const ANNOTATION_LUN := "shortrack.sapslaj.xyz/lun"
  const ANNOTATION_POOL_ID := "shortrack.sapslaj.xyz/pool-id"
  const ANNOTATION_STATUS := "shortrack.sapslaj.xyz/status"
  const ANNOTATION_VOLUME_ID := "shortrack.sapslaj.xyz/volume-id"
  const ANNOTATION_VOLUME_NAME := "shortrack.sapslaj.xyz/volume-name"
  const ANNOTATION_VOLUME_SIZE := "shortrack.sapslaj.xyz/volume-size"

  type Annotations = map<string, string>

  /** Go's lookup in a string map: the empty string when the key is absent. */
  function Lookup(m: Annotations, key: string): string {
    if key in m then m[key] else ""
  }

  datatype Parameters = Parameters(poolName: string, serverAddr: string, targetPortal: string, fsType: string)

  datatype Claim = Claim(namespace: string, name: string, annotations: Annotations, selector: bool, request: u64)

  datatype PersistentVolume = PersistentVolume(
    name: string, annotations: Annotations, targetPortal: string, iqn: string, lun: int, fsType: string)

  datatype Failure =
    | SelectorGiven | NoServerAddr | BadAnnotation | NoPoolName | UpdateFailed | NoClass | Rpc(code: Code) | NilReply

  datatype Outcome = Provisioned(pv: PersistentVolume) | Failed(failure: Failure)

  /** The storage class as the provisioner holds it, and as the API server stores it. */
  class StorageClass {
    const parameters: Parameters
    const flaky: bool   // an update may fail
    var annotations: Annotations
    var stored: Annotations

    constructor (parameters: Parameters, flaky: bool, annotations: Annotations)
      ensures this.parameters == parameters && this.flaky == flaky
      ensures this.annotations == annotations && this.stored == annotations
    {
      this.parameters := parameters;
      this.flaky := flaky;
      this.annotations := annotations;
      this.stored := annotations;
    }

    /** The update call; a reply may be lost after the store has changed. */
    method Update() returns (ok: bool)
      modifies this`stored
      ensures stored == old(stored) || stored == annotations
      ensures ok ==> stored == annotations
      ensures !flaky ==> ok
    {
      if flaky { if * { return false; } }
      stored := annotations;
      ok := true;
      if flaky { ok := *; }
    }

    /** Get the class from the API server again. */
    method Refresh()
      modifies this`annotations
      ensures annotations == stored
    {
      annotations := stored;
    }
  }

  /** `ParseNumber[uint32]`. */
  function ParseNumber(raw: string): (n: Option<u32>)
    ensures forall m: nat :: raw == Dec(m) ==> n == if m < U32_LIMIT then Some(m) else None
  {
    var n := ParseUint(raw, U32_LIMIT);
    assert forall m: nat :: raw == Dec(m) ==> n == if m < U32_LIMIT then Some(m) else None by {
      forall m: nat | raw == Dec(m) ensures n == if m < U32_LIMIT then Some(m) else None {
        ParseOfDec(m, U32_LIMIT);
      }
    }
    match n
    case None => None
    case Some(v) => Some(v)
  }

  /** The id an annotation records: 0 when it is empty, none when it does not parse. */
  function Recorded(raw: string): Option<u32> {
    if raw == "" then Some(0) else ParseNumber(raw)
  }

  // What calls of a remote server do to its registry.

  /** At most one pool was added, empty, and under a name no pool had. */
  ghost predicate PoolsGrown(s: State, t: State, name: string) {
    || t == s
    || exists id: u16 ::
         && id != 0 && id !in s.pools
         && (forall p | p in s.pools :: s.pools[p].name != name)
         && t == PutPool(s, StatePool(id, name, map[]))
  }

  /** At most one volume was added, with an id its pool did not have. */
  ghost predicate VolumeAdded(s: State, t: State, inn: CreateVolumeRequest, id: u16) {
    var p := ToU16(inn.poolId);
    && id != 0 && p in s.pools && id !in s.pools[p].volumes
    && t == PutVolume(Bump(s, id), p, NewVolume(inn, id))
  }

  /** The pool already has the id, or a volume without a name. */
  predicate Refused(s: State, poolId: u32, id: u16) {
    ToU16(poolId) in s.pools && VolumeConflict(s.pools[ToU16(poolId)], id)
  }

  ghost predicate VolumesGrown(s: State, t: State, inn: CreateVolumeRequest, id: u16) {
    t == s || t == Bump(s, id) || VolumeAdded(s, t, inn, id)
  }

  ghost predicate VolumesShrunk(s: State, t: State, inn: DeleteVolumeRequest) {
    t == s || t == DropVolume(s, ToU16(inn.poolId), ToU16(inn.volumeId))
  }

  lemma PoolCallEffect(c: ServerConfig, w: World, inn: CreatePoolRequest, id: u16, w': World, res: PoolInfo, code: Code)
    requires WellKeyed(w.st) && id != 0 && CreatePoolOutcome(c, w, inn, id, w', res, code)
    ensures code in {AlreadyExists, Aborted} ==> w'.st == w.st
    ensures code in {OK, Internal} ==> id !in w.st.pools && w'.st == PutPool(w.st, NewPool(inn, id))
    ensures code == OK ==> res.poolId == id
    ensures code in {AlreadyExists, Aborted, OK, Internal}
    ensures code == AlreadyExists ==> PoolConflict(w.st, inn, id)
  {
    hide Saved;
    Runs.CreatePoolRefines(c, w, inn, id, w', res, code);
  }

  /** The kernel exports the volume: its LUN is in its pool's target and holds a link of its
      name, to its backstore unless there was such a link before. */
  ghost predicate Exports(c: ServerConfig, a: Fs, b: Fs, pool: StatePool, volume: StateVolume) {
    var x, d := LinkOf(c, pool, volume), DeviceOf(volume);
    && x.lun in b.luns && x in b.links && b.links[x] == (if x in a.links then a.links[x] else d)
    && d in b.devs && b.devs[d].file == FileOf(c, pool, volume) && b.devs[d].enabled
  }

  /** What a successful create has done to registry and kernel, and what it reports. */
  ghost predicate Made(c: ServerConfig, w: World, w': World, inn: CreateVolumeRequest, id: u16, res: VolumeInfo) {
    var p, volume := ToU16(inn.poolId), NewVolume(inn, id);
    && VolumeAdded(w.st, w'.st, inn, id)
    && w.st.pools[p].id == p
    && Exports(c, w.fs, w'.fs, w.st.pools[p], volume)
    && res == VolumeInfo(inn.poolId, id, Active, volume.name, inn.volumeSize, Iqn(c.baseIqn, w.st.pools[p].name), id)
  }

  lemma MadeExports(c: ServerConfig, a: Fs, b: Fs, pool: StatePool, volume: StateVolume)
    requires VolumePut(c, a, b, pool, volume) && VolumeMade(c, a, b, pool, volume)
    ensures Exports(c, a, b, pool, volume)
  {
    hide LinkOf, DeviceOf, FileOf, FileTouched, BackstorePut, TargetPut, Zeros;
  }

  lemma VolumeCallEffect(
      c: ServerConfig, w: World, inn: CreateVolumeRequest, id: u16, w': World, res: VolumeInfo, code: Code)
    requires WellKeyed(w.st) && CreateVolumeOutcome(c, w, inn, id, w', res, code)
    requires id != 0 ==> code !in {FailedPrecondition, ResourceExhausted}
    ensures VolumesGrown(w.st, w'.st, inn, id)
    ensures id != 0 && inn.volumeSize >= 1 ==> (code == AlreadyExists <==> Refused(w.st, inn.poolId, id))
    ensures code == AlreadyExists ==> id != 0 && inn.volumeSize >= 1 && w'.st.pools == w.st.pools
    ensures code == OK ==> Made(c, w, w', inn, id, res)
    ensures code == Crashed ==> NewVolume(inn, id).name == ""
    ensures code == InvalidArgument ==> id == 0 || inn.volumeSize < 1 || ToU16(inn.poolId) !in w.st.pools
    ensures code in
              {InvalidArgument, FailedPrecondition, ResourceExhausted, AlreadyExists, Aborted, Crashed, OK, Internal}
  {
    hide VolumePut, MadeInOrder, VolumeMade, Exports, Saved, PutVolume, NewVolume, VolumeConflict, Fs.Wf;
    Runs.CreateVolumeRefines(c, w, inn, id, w', res, code);
    if code == OK {
      MadeExports(c, w.fs, w'.fs, w.st.pools[ToU16(inn.poolId)], NewVolume(inn, id));
    }
  }

  /** Why the server did not make a pool; `w` is the server when it was asked. */
  ghost predicate PoolRefused(server: Server, w: World, inn: CreatePoolRequest, code: Code) {
    match code
    case FailedPrecondition => server.k.flaky || BadTargets(w.fs, server.cfg.baseIqn)
    case ResourceExhausted => forall i: u16 | 1 <= i < 65535 :: !FreeTpgId(w.fs, server.cfg, i)
    case AlreadyExists => exists id: u16 :: FreeTpgId(w.fs, server.cfg, id) && PoolConflict(w.st, inn, id)
    case Aborted => server.k.flaky
    case Internal => server.flakyDisk
    case _ => false
  }

  /** Why the server did not make a volume, other than that it was there; `w` is the server when
      it was asked. */
  ghost predicate VolumeRefused(server: Server, w: World, inn: CreateVolumeRequest, id: u16, code: Code) {
    match code
    case InvalidArgument =>
      || inn.volumeSize < 1 || ToU16(inn.poolId) !in w.st.pools
      || (inn.volumeId.Some? && ToU16(inn.volumeId.value) == 0)
    case FailedPrecondition => server.k.flaky || BadHbas(w.fs)
    case ResourceExhausted =>
      exists backstores :: ScannedBackstores(w.fs, backstores) && Exhausted(backstores, w.st.maxLunId)
    case Aborted => server.k.flaky || Unallocatable(server.cfg, w, inn, id)
    case Internal => server.flakyDisk
    case _ => false
  }

  /** Why the server did not delete a volume; `w` is the server when it was asked. */
  ghost predicate DeleteRefused(server: Server, w: World, inn: DeleteVolumeRequest, code: Code) {
    match code
    case InvalidArgument => inn.poolId >= U16_LIMIT || FreeTpgId(w.fs, server.cfg, inn.poolId)
    case FailedPrecondition => server.k.flaky || exists t :: Unreadable(w.fs, server.cfg, t)
    case Aborted =>
      || server.k.flaky || !Healthy(server.cfg, w)
      || Registered(w.st, ToU16(inn.poolId), ToU16(inn.volumeId)).None?
    case Internal => server.flakyDisk
    case _ => false
  }

  /** The client: on a lossy network any call may fail without reaching the server, or lose its
      reply.  A server that crashes never replies. */
  class SigmaClient {
    const server: Server
    const lossy: bool

    constructor (server: Server, lossy: bool)
      ensures this.server == server && this.lossy == lossy
    {
      this.server := server;
      this.lossy := lossy;
    }

    method ListPools() returns (pools: seq<PoolInfo>, code: Code)
      requires server.Valid()
      ensures code in {OK, Unavailable} && (!lossy ==> code == OK)
      ensures code == OK ==> forall p | p in server.st.pools :: InfoOf(server.cfg, server.st.pools[p]) in pools
      ensures code == OK ==> forall i | i in pools ::
              exists p :: p in server.st.pools && i == InfoOf(server.cfg, server.st.pools[p])
    {
      pools := [];
      if lossy { if * { return pools, Unavailable; } }
      pools := server.ListPools();
      code := OK;
    }

    method CreatePool(inn: CreatePoolRequest) returns (poolId: u32, code: Code)
      requires server.Valid() && inn.poolId.None?
      modifies server, server.k, server.Maps()
      ensures server.Valid() && fresh(server.Maps() - old(server.Maps()))
      ensures server.st == old(server.st) ||
          exists id: u16 :: id != 0 && id !in old(server.st.pools) &&
              server.st == PutPool(old(server.st), NewPool(inn, id))
      ensures code == OK ==>
          && 0 < poolId < U16_LIMIT && poolId !in old(server.st.pools)
          && server.st == PutPool(old(server.st), NewPool(inn, poolId))
      ensures code in {OK, Unavailable} || PoolRefused(server, old(server.Now()), inn, code)
      ensures !lossy ==> code != Unavailable
    {
      hide CreatePoolOutcome, Sound, FreeTpgId, BadTargets, PoolConflict;
      poolId := 0;
      if lossy { if * { return poolId, Unavailable; } }
      var res;
      ghost var id;
      Runs.SoundIsKeyed(server.st);
      res, code, id := server.CreatePool(inn);
      if code !in {InvalidArgument, FailedPrecondition, ResourceExhausted} {
        PoolCallEffect(server.cfg, old(server.Now()), inn, id, server.Now(), res, code);
      }
      if code != OK { return; }
      poolId := res.poolId;
      if lossy { if * { code := Unavailable; } }
    }

    /** `reached` says that the server's reply arrived; `backstores` is what the server had scanned. */
    method CreateVolume(inn: CreateVolumeRequest)
      returns (res: VolumeInfo, code: Code, ghost id: u16, ghost reached: bool, ghost backstores: seq<Backstore>)
      requires server.Valid()
      modifies server, server.k, server.Maps()
      ensures server.Valid() && fresh(server.Maps() - old(server.Maps()))
      ensures VolumesGrown(old(server.st), server.st, inn, id)
      ensures !reached ==> code == Unavailable && (lossy || NewVolume(inn, id).name == "")
      ensures reached ==> code in {OK, AlreadyExists} || VolumeRefused(server, old(server.Now()), inn, id, code)
      ensures reached && id != 0 && inn.volumeSize >= 1 ==>
          (code == AlreadyExists <==> Refused(old(server.st), inn.poolId, id))
      ensures code == AlreadyExists ==>
          && reached && id != 0 && inn.volumeSize >= 1
          && server.st.pools == old(server.st.pools)
      ensures reached && id != 0 && inn.volumeSize >= 1 && inn.volumeId.None? ==>
          ScannedBackstores(old(server.k.fs), backstores) && NextAfter(backstores, old(server.st.maxLunId), id)
      ensures code == OK ==> Made(server.cfg, old(server.Now()), server.Now(), inn, id, res)
    {
      hide CreateVolumeOutcome, Sound, VolumesGrown, Made, Refused, ScannedBackstores, NextAfter, Exhausted,
        Unallocatable, NewVolume, Fs.Wf;
      res, id, reached, backstores := VolumeInfo(0, 0, Invalid, "", 0, "", 0), 0, false, [];
      if lossy {
        if * {
          NothingGrown(server.st, inn, id);
          return res, Unavailable, id, reached, backstores;
        }
      }
      ghost var before := server.Now();
      ValidIsKeyed(server);
      res, code, id, backstores := server.CreateVolume(inn);
      VolumeCallEffect(server.cfg, before, inn, id, server.Now(), res, code);
      if code == Crashed { return res, Unavailable, id, reached, backstores; }
      if lossy { if * { return res, Unavailable, id, reached, backstores; } }
      reached := true;
    }

    /** `answered` says that the server's reply arrived. */
    method GetVolume(inn: GetVolumeRequest) returns (res: VolumeInfo, code: Code, ghost answered: bool)
      requires server.Valid()
      ensures !answered ==> code == Unavailable && lossy
      ensures code == OK ==>
        && ToU16(inn.poolId) in server.st.pools && res.poolId == 0
        && InfoFrom(server.cfg, res, server.st.pools[ToU16(inn.poolId)], inn.volumeId)
      ensures answered && inn.volumeId.None? && inn.volumeName.Some? && ToU16(inn.poolId) in server.st.pools ==>
        (code == OK <==> var pool := server.st.pools[ToU16(inn.poolId)];
                         pool.name == inn.volumeName.value && pool.volumes != map[])
    {
      hide Sound;
      res, answered := VolumeInfo(0, 0, Invalid, "", 0, "", 0), false;
      if lossy { if * { return res, Unavailable, answered; } }
      res, code := server.GetVolume(inn);
      answered := true;
    }

    method DeleteVolume(inn: DeleteVolumeRequest) returns (code: Code)
      requires server.Valid()
      modifies server, server.k, server.Maps()
      ensures server.Valid() && fresh(server.Maps() - old(server.Maps()))
      ensures VolumesShrunk(old(server.st), server.st, inn)
      ensures code == OK ==>
          inn.poolId < U16_LIMIT && server.st == DropVolume(old(server.st), inn.poolId, ToU16(inn.volumeId))
      ensures inn.poolId >= U16_LIMIT ==> server.st == old(server.st) && code != OK
      ensures code in {OK, Unavailable} || DeleteRefused(server, old(server.Now()), inn, code)
      ensures !lossy ==> code != Unavailable
    {
      hide DeleteVolumeOutcome, Healthy, Unreadable, TargetListed, Sound, VolumesShrunk, KindFound, DropVolume,
        FreeTpgId, StatusTells, Registered, TargetName;
      ghost var before := server.Now();
      NothingShrunk(before.st, inn);
      if lossy { if * { return Unavailable; } }
      ValidIsKeyed(server);
      var res;
      ghost var target, kind, cause;
      res, code, target, kind, cause := server.DeleteVolume(inn);
      if code !in {FailedPrecondition, InvalidArgument} {
        Runs.DeleteVolumeRefines(server.cfg, before, inn, target, kind, server.Now(), code, cause);
      }
      if lossy { if * { code := Unavailable; } }
    }
  }

  lemma NothingGrown(s: State, inn: CreateVolumeRequest, id: u16)
    ensures VolumesGrown(s, s, inn, id)
  {
  }

  lemma NothingShrunk(s: State, inn: DeleteVolumeRequest)
    ensures VolumesShrunk(s, s, inn)
    ensures VolumesShrunk(s, DropVolume(s, ToU16(inn.poolId), ToU16(inn.volumeId)), inn)
  {
  }

  lemma ValidIsKeyed(server: Server)
    requires server.Valid()
    ensures WellKeyed(server.Now().st) && server.Now().st == server.st
  {
  }

  // Annotations.

  function StatusText(status: Status): string {
    match status
    case Invalid => "RESOURCE_INVALID_STATUS"
    case Gone => "RESOURCE_ABSENT"
    case Active => "RESOURCE_ACTIVE"
    case Degraded => "RESOURCE_DEGRADED"
  }

  function VolumeName(claim: Claim, pvName: string): string {
    claim.namespace + "-" + claim.name + "-" + pvName
  }

  function VolumeRequest(claim: Claim, pvName: string, poolId: u32): CreateVolumeRequest {
    CreateVolumeRequest(poolId, None, Some(VolumeName(claim, pvName)), claim.request)
  }

  function PvOf(pvName: string, parameters: Parameters, info: VolumeInfo): PersistentVolume
    requires info.lun >= 0
  {
    PersistentVolume(
      pvName,
      map[ANNOTATION_IQN := info.iqn,
          ANNOTATION_LUN := Dec(info.lun),
          ANNOTATION_POOL_ID := Dec(info.poolId),
          ANNOTATION_STATUS := StatusText(info.status),
          ANNOTATION_VOLUME_ID := Dec(info.volumeId),
          ANNOTATION_VOLUME_NAME := info.volumeName,
          ANNOTATION_VOLUME_SIZE := Dec(info.volumeSize)],
      parameters.targetPortal, info.iqn, ToI32(info.lun), if parameters.fsType != "" then parameters.fsType else "ext4")
  }

  /** The annotations say which volume it is. */
  predicate Records(pv: PersistentVolume, poolId: u32, volumeId: u32) {
    Lookup(pv.annotations, ANNOTATION_POOL_ID) == Dec(poolId) &&
        Lookup(pv.annotations, ANNOTATION_VOLUME_ID) == Dec(volumeId)
  }

  // One pool per class.

  predicate OneNamed(s: State, name: string) {
    forall p, q | p in s.pools && q in s.pools && s.pools[p].name == name && s.pools[q].name == name :: p == q
  }

  /** The annotation is absent or names a registered pool with the name. */
  predicate Points(s: State, annotations: Annotations, name: string) {
    || Lookup(annotations, ANNOTATION_POOL_ID) == ""
    || exists p: u16 | p in s.pools :: p != 0 && s.pools[p].name == name &&
        Lookup(annotations, ANNOTATION_POOL_ID) == Dec(p)
  }

  /** The class has one pool at most, and what it remembers is that pool. */
  predicate Bound(s: State, name: string, annotations: Annotations, stored: Annotations) {
    OneNamed(s, name) && Points(s, annotations, name) && Points(s, stored, name)
  }

  predicate NamedPool(s: State, poolId: u32, name: string) {
    poolId != 0 && poolId < U16_LIMIT && poolId in s.pools && s.pools[poolId].name == name
  }

  lemma PoolsGrownStaysBound(s: State, t: State, name: string, annotations: Annotations, stored: Annotations)
    requires Bound(s, name, annotations, stored) && PoolsGrown(s, t, name)
    ensures Bound(t, name, annotations, stored)
  {
    PointsStays(s, t, name, annotations);
    PointsStays(s, t, name, stored);
  }

  lemma PointsStays(s: State, t: State, name: string, annotations: Annotations)
    requires Points(s, annotations, name) && PoolsGrown(s, t, name)
    ensures Points(t, annotations, name)
  {
    if Lookup(annotations, ANNOTATION_POOL_ID) != "" {
      var p: u16 :| p in s.pools && p != 0 && s.pools[p].name == name &&
          Lookup(annotations, ANNOTATION_POOL_ID) == Dec(p);
      assert p in t.pools && t.pools[p].name == name;
    }
  }

  /** What a class remembers parses back to its pool. */
  lemma PointsParses(s: State, name: string, annotations: Annotations)
    requires Points(s, annotations, name) && Lookup(annotations, ANNOTATION_POOL_ID) != ""
    ensures var n := ParseNumber(Lookup(annotations, ANNOTATION_POOL_ID)); n.Some? && NamedPool(s, n.value, name)
  {
  }

  lemma WritingStaysBound(s: State, name: string, annotations: Annotations, stored: Annotations, poolId: u32)
    requires Bound(s, name, annotations, stored) && NamedPool(s, poolId, name)
    ensures var now := annotations[ANNOTATION_POOL_ID := Dec(poolId)];
            Bound(s, name, now, stored) && Bound(s, name, now, now)
  {
    var p: u16 := poolId;
    assert p in s.pools && p != 0 && Lookup(annotations[ANNOTATION_POOL_ID := Dec(poolId)],
        ANNOTATION_POOL_ID) == Dec(p);
  }

  lemma VolumesGrownStaysBound(
      s: State, t: State, inn: CreateVolumeRequest, id: u16, name: string, annotations: Annotations,
      stored: Annotations, poolId: u32)
    requires Bound(s, name, annotations, stored) && VolumesGrown(s, t, inn, id) && NamedPool(s, poolId, name)
    ensures Bound(t, name, annotations, stored) && NamedPool(t, poolId, name)
  {
    SamePoolsPoint(s, t, name, annotations);
    SamePoolsPoint(s, t, name, stored);
  }

  lemma SamePoolsPoint(s: State, t: State, name: string, annotations: Annotations)
    requires Points(s, annotations, name)
    requires forall p | p in s.pools :: p in t.pools && t.pools[p].name == s.pools[p].name
    ensures Points(t, annotations, name)
  {
  }

  class Provisioner {
    const client: SigmaClient

    constructor (client: SigmaClient)
      ensures this.client == client
    {
      this.client := client;
    }

    /** The search loop over the listed pools. */
    method FindPool(pools: seq<PoolInfo>, name: string) returns (poolId: u32)
      ensures || (exists i :: i in pools && i.poolName == name && poolId == i.poolId)
              || (poolId == 0 && forall i | i in pools :: i.poolName != name)
    {
      poolId := 0;
      for i := 0 to |pools|
        invariant poolId == 0
        invariant forall j | 0 <= j < i :: pools[j].poolName != name
      {
        if pools[i].poolName != name { continue; }
        poolId := pools[i].poolId;
        break;
      }
    }

    /** The pool id in an annotation, 0 when there is none. */
    method Annotated(raw: string) returns (ok: bool, poolId: u32)
      ensures ok <==> Recorded(raw).Some?
      ensures ok ==> poolId == Recorded(raw).value
    {
      ok, poolId := true, 0;
      if raw != "" {
        match ParseNumber(raw) {
          case None => ok := false;
          case Some(n) => poolId := n;
        }
      }
    }

    method LookUpPool(name: string) returns (failure: Option<Failure>, poolId: u32)
      requires client.server.Valid()
      ensures failure.None? && poolId != 0 ==>
        poolId < U16_LIMIT && poolId in client.server.st.pools && client.server.st.pools[poolId].name == name
      ensures failure.None? && poolId == 0 ==>
              forall p | p in client.server.st.pools :: client.server.st.pools[p].name != name
      ensures failure == Some(NoPoolName) <==> name == ""
      ensures failure.Some? && name != "" ==> client.lossy && failure == Some(Rpc(Unavailable))
    {
      poolId := 0;
      if name == "" { return Some(NoPoolName), poolId; }
      var pools, code := client.ListPools();
      if code != OK { return Some(Rpc(code)), poolId; }
      poolId := FindPool(pools, name);
      failure := None;
    }

    /** The stages by which a claim gets its pool: the claim's annotation, the class's, the name, a
        new pool.  `before` is the server when a pool was made, or at the end if none was. */
    method ResolvePool(claim: Claim, sc: StorageClass)
      returns (failure: Option<Failure>, poolId: u32, scAnnotation: string, ghost before: World)
      requires client.server.Valid()
      modifies client.server, client.server.k, client.server.Maps()
      ensures client.server.Valid() && fresh(client.server.Maps() - old(client.server.Maps()))
      ensures KeepsNamed(old(client.server.st), before.st, sc.parameters.poolName)
      ensures PoolsGrown(before.st, client.server.st, sc.parameters.poolName)
      ensures failure.None? ==> poolId != 0
      ensures ResolveFails(client, claim, sc.annotations, sc.parameters.poolName, before, failure)
      ensures failure.None? && Preset(claim) != 0 ==>
          poolId == Preset(claim) && scAnnotation == "" && client.server.st == before.st == old(client.server.st)
      ensures failure.None? && Preset(claim) == 0 ==>
          scAnnotation == Lookup(sc.annotations, ANNOTATION_POOL_ID) && Recorded(scAnnotation).Some?
      ensures failure.None? && Preset(claim) == 0 && Recorded(scAnnotation).value != 0 ==>
          poolId == Recorded(scAnnotation).value && client.server.st == before.st == old(client.server.st)
      ensures failure.None? && Preset(claim) == 0 && Recorded(scAnnotation).value == 0 ==>
          NamedPool(client.server.st, poolId, sc.parameters.poolName)
    {
      hide KeepsNamed, Sound, Fs.Wf, Recorded, PoolsGrown, PoolRefused;
      var name := sc.parameters.poolName;
      before, scAnnotation := client.server.Now(), "";
      KeepsNamedRefl(before.st, name);
      NoPoolsGrown(before.st, name);
      PresetIs(claim);
      var ok;
      ok, poolId := Annotated(Lookup(claim.annotations, ANNOTATION_POOL_ID));
      if !ok { return Some(BadAnnotation), poolId, scAnnotation, before; }
      if poolId == 0 {
        scAnnotation := Lookup(sc.annotations, ANNOTATION_POOL_ID);
        ok, poolId := Annotated(scAnnotation);
        if !ok { return Some(BadAnnotation), poolId, scAnnotation, before; }
        if poolId == 0 {
          failure, poolId := LookUpPool(name);
          if failure.Some? { return; }
          if poolId == 0 {
            var code;
            poolId, code, before := MakePool(name);
            if code != OK { return Some(Rpc(code)), poolId, scAnnotation, before; }
          }
        }
      }
      failure := None;
    }

    /** No pool had the name when they were listed; then, after whatever happens, make one. */
    method MakePool(name: string) returns (poolId: u32, code: Code, ghost before: World)
      requires client.server.Valid()
      requires forall p | p in client.server.st.pools :: client.server.st.pools[p].name != name
      modifies client.server, client.server.k, client.server.Maps()
      ensures client.server.Valid() && fresh(client.server.Maps() - old(client.server.Maps()))
      ensures KeepsNamed(old(client.server.st), before.st, name) && PoolsGrown(before.st, client.server.st, name)
      ensures code == OK ==> poolId != 0 && NamedPool(client.server.st, poolId, name)
      ensures code != OK ==>
          || (client.lossy && code == Unavailable)
          || PoolRefused(client.server, before, CreatePoolRequest(None, Some(name)), code)
    {
      hide Sound, Fs.Wf, PoolRefused;
      Meanwhile(name);
      before := client.server.Now();
      poolId, code := client.CreatePool(CreatePoolRequest(None, Some(name)));
    }

    /** Write the pool id to the class, unless the class had one. */
    method Annotate(sc: StorageClass, scAnnotation: string, poolId: u32) returns (ok: bool)
      modifies sc
      ensures scAnnotation != "" ==> ok && sc.annotations == old(sc.annotations) && sc.stored == old(sc.stored)
      ensures scAnnotation == "" ==> sc.annotations == old(sc.annotations)[ANNOTATION_POOL_ID := Dec(poolId)]
      ensures scAnnotation == "" ==> sc.stored == old(sc.stored) || sc.stored == sc.annotations
      ensures scAnnotation == "" && ok ==> sc.stored == sc.annotations
      ensures !sc.flaky ==> ok
    {
      ok := true;
      if scAnnotation == "" {
        sc.annotations := sc.annotations[ANNOTATION_POOL_ID := Dec(poolId)];
        ok := sc.Update();
      }
    }

    /** The volume for the claim.  `after` is the server when the create was over, `scan` what it
        had listed when the create's reply arrived and it had allocated an id, and `answered`
        says that the lookup after a refusal got its reply.  The lookup's error is dropped, so
        when it fails the missing reply is dereferenced; a refusal in turn comes exactly from an
        empty scan and a volume 1. */
    method MakeVolume(claim: Claim, pvName: string, parameters: Parameters, poolId: u32)
      returns (r: Outcome, ghost after: World, ghost id: u16, ghost scan: Option<seq<Backstore>>, ghost answered: bool)
      requires client.server.Valid()
      modifies client.server, client.server.k, client.server.Maps()
      ensures client.server.Valid() && fresh(client.server.Maps() - old(client.server.Maps()))
      ensures VolumesGrown(old(client.server.st), after.st, VolumeRequest(claim, pvName, poolId), id)
      ensures KeepsNamed(after.st, client.server.st, parameters.poolName)
      ensures scan.Some? ==> ScannedBackstores(old(client.server.k.fs), scan.value)
      ensures r.Provisioned? ==>
          || NewlyProvisioned(client.server.cfg, old(client.server.Now()), after, claim, pvName, poolId, id, r.pv)
          || FoundByName(client.server.cfg, client.server.st, claim, pvName, poolId, r.pv)
      ensures r.Provisioned? ==> MountedBy(r.pv, pvName, parameters)
      ensures r.Failed? ==>
          r.failure == NilReply || VolumeFails(client, old(client.server.Now()), claim, pvName, poolId, id, r.failure)
      ensures VolumesNamed(old(client.server.st)) ==>
          (r == Failed(NilReply) <==>
            Blocked(old(client.server.st), poolId, scan) &&
                !(answered && Found(client.server.st, claim, pvName, poolId)))
      ensures VolumesNamed(old(client.server.st)) && Blocked(old(client.server.st), poolId, scan) && !client.lossy ==>
          answered
    {
      hide VolumesGrown, Made, NewlyProvisioned, FoundByName, Refused, Blocked, Found, VolumesNamed, Sound,
        ScannedBackstores, NextAfter, Fs.Wf, Dec, InfoFrom, Iqn, VolumeName, KeepsNamed, VolumeRefused, MountedBy;
      VolumeIsNamed(claim, pvName, poolId);
      ghost var before := client.server.Now();
      var request := VolumeRequest(claim, pvName, poolId);
      scan, answered := None, false;
      var info, code;
      ghost var reached, backstores;
      info, code, id, reached, backstores := client.CreateVolume(request);
      after := client.server.Now();
      KeepsNamedRefl(after.st, parameters.poolName);
      if reached && id != 0 && claim.request >= 1 {
        scan := Some(backstores);
        if VolumesNamed(before.st) { RefusedIffBlocked(before.st, poolId, backstores, id); }
      } else {
        NotBlocked(before.st, poolId);
      }
      if code == AlreadyExists {
        info, code, answered := LookUpVolume(claim, pvName, parameters.poolName, poolId);
        if code != OK { return Failed(NilReply), after, id, scan, answered; }
        InfoHasLun(client.server.cfg, info, client.server.st.pools[ToU16(poolId)]);
        FoundIsFound(client.server.cfg, client.server.st, claim, pvName, poolId, parameters, info);
        PvMounts(pvName, parameters, info);
      } else if code != OK {
        return Failed(Rpc(code)), after, id, scan, answered;
      } else {
        MadeHasLun(client.server.cfg, before, after, request, id, info);
        MadeIsProvisioned(client.server.cfg, before, after, claim, pvName, poolId, id, parameters, info);
        PvMounts(pvName, parameters, info);
      }
      r := Provisioned(PvOf(pvName, parameters, info));
    }

    /** The lookup after a refusal, which may come as late as it likes. */
    method LookUpVolume(claim: Claim, pvName: string, name: string, poolId: u32)
      returns (info: VolumeInfo, code: Code, ghost answered: bool)
      requires client.server.Valid()
      modifies client.server, client.server.k, client.server.Maps()
      ensures client.server.Valid() && fresh(client.server.Maps() - old(client.server.Maps()))
      ensures KeepsNamed(old(client.server.st), client.server.st, name)
      ensures code == OK <==> answered && Found(client.server.st, claim, pvName, poolId)
      ensures !client.lossy ==> answered
      ensures code == OK ==>
        && ToU16(poolId) in client.server.st.pools && info.poolId == 0
        && client.server.st.pools[ToU16(poolId)].name == VolumeName(claim, pvName)
        && InfoFrom(client.server.cfg, info, client.server.st.pools[ToU16(poolId)], None)
    {
      hide Sound, Fs.Wf, KeepsNamed, InfoFrom, VolumeName;
      Meanwhile(name);
      info, code, answered := client.GetVolume(GetVolumeRequest(poolId, None, Some(VolumeName(claim, pvName))));
    }

    /** One attempt.  Anything may happen between its calls; `t` tells what the server was then. */
    method Provision(claim: Claim, pvName: string, sc: StorageClass)
      returns (r: Outcome, ghost t: Trace, ghost scan: Option<seq<Backstore>>, ghost answered: bool)
      requires client.server.Valid()
      modifies client.server, client.server.k, client.server.Maps(), sc
      ensures client.server.Valid() && fresh(client.server.Maps() - old(client.server.Maps()))
      ensures Steps(old(client.server.st), t, Attempt(claim, pvName), sc.parameters.poolName)
      ensures t.done == client.server.st
      ensures r.Provisioned? ==> Landed(client.server.cfg, Attempt(claim, pvName), t, r.pv)
      ensures r.Provisioned? ==> MountedBy(r.pv, pvName, sc.parameters)
      ensures r == Failed(SelectorGiven) <==> claim.selector
      ensures r == Failed(NoServerAddr) <==> !claim.selector && sc.parameters.serverAddr == ""
      ensures r.Failed? && r.failure !in {SelectorGiven, NoServerAddr, NilReply} ==>
          || ResolveFails(client, claim, old(sc.annotations), sc.parameters.poolName, t.before, Some(r.failure))
          || (r.failure == UpdateFailed && sc.flaky)
          || VolumeFails(client, t.made, claim, pvName, t.poolId, t.id, r.failure)
      ensures r.Provisioned? && Preset(claim) != 0 ==>
          && t.poolId == Preset(claim) && t.resolved == t.before.st
          && sc.annotations == old(sc.annotations)[ANNOTATION_POOL_ID := Dec(t.poolId)]
      ensures Preset(claim) == 0 && old(Bound(client.server.st, sc.parameters.poolName, sc.annotations, sc.stored)) ==>
          && Bound(client.server.st, sc.parameters.poolName, sc.annotations, sc.stored)
          && (r.Provisioned? ==> NamedPool(client.server.st, t.poolId, sc.parameters.poolName))
      ensures claim.selector ==>
          r == Failed(SelectorGiven) && client.server.st == old(client.server.st) && sc.stored == old(sc.stored)
      ensures scan.Some? ==> ScannedBackstores(t.made.fs, scan.value)
      ensures VolumesNamed(t.made.st) ==>
          (r == Failed(NilReply) <==>
            Blocked(t.made.st, t.poolId, scan) && !(answered && Found(t.done, claim, pvName, t.poolId)))
      ensures VolumesNamed(t.made.st) && Blocked(t.made.st, t.poolId, scan) && !client.lossy ==> answered
      ensures r.Provisioned? || t.after.st != t.made.st ==>
          || sc.stored == sc.annotations
          || (Preset(claim) == 0 && old(Lookup(sc.annotations, ANNOTATION_POOL_ID)) != "")
    {
      hide PoolsGrown, VolumesGrown, KeepsNamed, NewlyProvisioned, FoundByName, Bound, NamedPool, ParseNumber, Dec,
        VolumeRequest, Preset, Blocked, Found, VolumesNamed, ScannedBackstores, MountedBy, ResolveFails, VolumeFails,
        Sound, Fs.Wf, Steps, Landed, Lookup;
      scan, answered := None, false;
      var name := sc.parameters.poolName;
      t := Standstill(client.server.Now(), claim, pvName, name);
      NotBlocked(t.made.st, t.poolId);
      if claim.selector { return Failed(SelectorGiven), t, scan, answered; }
      if sc.parameters.serverAddr == "" { return Failed(NoServerAddr), t, scan, answered; }
      var failure, poolId, scAnnotation, bound, before := ResolveBound(claim, sc);
      ghost var resolved := client.server.st;
      KeepsNamedRefl(resolved, name);
      t := Resolved(client.server.Now(), claim, pvName, name, before, resolved, poolId);
      NotBlocked(t.made.st, t.poolId);
      if failure.Some? {
        ResolveFailures(client, claim, sc.annotations, name, before, failure);
        return Failed(failure.value), t, scan, answered;
      }
      Meanwhile(name);
      if bound { KeptPool(resolved, client.server.st, name, sc.annotations, sc.stored, poolId); }
      ghost var now := client.server.st;
      var ok := Annotate(sc, scAnnotation, poolId);
      if bound { WritingStaysBound(now, name, old(sc.annotations), old(sc.stored), poolId); }
      t := Resolved(client.server.Now(), claim, pvName, name, before, resolved, poolId);
      NotBlocked(t.made.st, t.poolId);
      if !ok { return Failed(UpdateFailed), t, scan, answered; }
      r, t, scan, answered := MakeInPool(claim, pvName, sc, poolId, before, resolved, bound);
    }

    /** The rest of an attempt: its pool is `resolved` and recorded. */
    method MakeInPool(
        claim: Claim, pvName: string, sc: StorageClass, poolId: u32, ghost before: World, ghost resolved: State,
        ghost bound: bool)
      returns (r: Outcome, ghost t: Trace, ghost scan: Option<seq<Backstore>>, ghost answered: bool)
      requires client.server.Valid()
      requires PoolsGrown(before.st, resolved, sc.parameters.poolName)
      requires KeepsNamed(resolved, client.server.st, sc.parameters.poolName)
      requires bound ==>
          && Bound(client.server.st, sc.parameters.poolName, sc.annotations, sc.stored)
          && NamedPool(client.server.st, poolId, sc.parameters.poolName)
      modifies client.server, client.server.k, client.server.Maps()
      ensures client.server.Valid() && fresh(client.server.Maps() - old(client.server.Maps()))
      ensures forall s | KeepsNamed(s, before.st, sc.parameters.poolName) ::
                Steps(s, t, Attempt(claim, pvName), sc.parameters.poolName)
      ensures t.before == before && t.resolved == resolved && t.poolId == poolId && t.done == client.server.st
      ensures r.Provisioned? ==> Landed(client.server.cfg, Attempt(claim, pvName), t, r.pv)
      ensures r.Provisioned? ==> MountedBy(r.pv, pvName, sc.parameters)
      ensures r.Failed? ==>
          || r.failure == NilReply
          || (r.failure.Rpc? && VolumeFails(client, t.made, claim, pvName, t.poolId, t.id, r.failure))
      ensures scan.Some? ==> ScannedBackstores(t.made.fs, scan.value)
      ensures VolumesNamed(t.made.st) ==>
          (r == Failed(NilReply) <==>
            Blocked(t.made.st, t.poolId, scan) && !(answered && Found(t.done, claim, pvName, t.poolId)))
      ensures VolumesNamed(t.made.st) && Blocked(t.made.st, t.poolId, scan) && !client.lossy ==> answered
      ensures bound ==>
          && Bound(client.server.st, sc.parameters.poolName, sc.annotations, sc.stored)
          && NamedPool(client.server.st, poolId, sc.parameters.poolName)
    {
      hide PoolsGrown, VolumesGrown, KeepsNamed, NewlyProvisioned, FoundByName, Bound, NamedPool, ParseNumber, Dec,
        VolumeRequest, Blocked, Found, VolumesNamed, ScannedBackstores, MountedBy, VolumeFails, Sound, Fs.Wf;
      var name := sc.parameters.poolName;
      ghost var now := client.server.st;
      Meanwhile(name);
      KeepsNamedTrans(resolved, now, client.server.st, name);
      ghost var made := client.server.Now();
      ghost var after, id;
      r, after, id, scan, answered := MakeVolume(claim, pvName, sc.parameters, poolId);
      if r.Failed? && r.failure != NilReply { VolumeFailures(client, made, claim, pvName, poolId, id, r.failure); }
      t := Trace(before, resolved, made, after, client.server.st, poolId, id);
      if bound {
        KeptPool(now, made.st, name, sc.annotations, sc.stored, poolId);
        VolumesGrownStaysBound(made.st, after.st, VolumeRequest(claim, pvName, poolId), id, name, sc.annotations,
                               sc.stored, poolId);
        KeptPool(after.st, client.server.st, name, sc.annotations, sc.stored, poolId);
      }
    }

    /** The same stages; the pool of a bound class is the one with its name. */
    method ResolveBound(claim: Claim, sc: StorageClass)
      returns (failure: Option<Failure>, poolId: u32, scAnnotation: string, ghost bound: bool, ghost before: World)
      requires client.server.Valid()
      modifies client.server, client.server.k, client.server.Maps()
      ensures client.server.Valid() && fresh(client.server.Maps() - old(client.server.Maps()))
      ensures KeepsNamed(old(client.server.st), before.st, sc.parameters.poolName)
      ensures PoolsGrown(before.st, client.server.st, sc.parameters.poolName)
      ensures ResolveFails(client, claim, sc.annotations, sc.parameters.poolName, before, failure)
      ensures bound <==>
          && Preset(claim) == 0
          && Bound(old(client.server.st), sc.parameters.poolName, sc.annotations, sc.stored)
      ensures failure.None? ==>
          scAnnotation == if Preset(claim) != 0 then "" else Lookup(sc.annotations, ANNOTATION_POOL_ID)
      ensures failure.None? && Preset(claim) != 0 ==>
          poolId == Preset(claim) && client.server.st == before.st
      ensures bound ==>
          && Bound(client.server.st, sc.parameters.poolName, sc.annotations, sc.stored)
          && (failure.None? ==> NamedPool(client.server.st, poolId, sc.parameters.poolName))
    {
      hide KeepsNamed, PoolsGrown, Bound, NamedPool, Points, ResolveFails, Sound, Fs.Wf;
      var name := sc.parameters.poolName;
      bound := Preset(claim) == 0 && Bound(client.server.st, name, sc.annotations, sc.stored);
      failure, poolId, scAnnotation, before := ResolvePool(claim, sc);
      if bound {
        KeptStaysBound(old(client.server.st), before.st, name, sc.annotations, sc.stored);
        PoolsGrownStaysBound(before.st, client.server.st, name, sc.annotations, sc.stored);
        BoundParses(client.server.st, name, sc.annotations, sc.stored);
      }
    }

    /** What may happen between two calls: anything but making a pool of the class's name or
        losing one.  The machine drifts or is reconciled, other clients create and delete volumes
        and other pools, and the server restarts from a file that has the class's pool if memory
        has it. */
    method Meanwhile(name: string)
      requires client.server.Valid()
      modifies client.server, client.server.k, client.server.Maps()
      ensures client.server.Valid() && fresh(client.server.Maps() - old(client.server.Maps()))
      ensures KeepsNamed(old(client.server.st), client.server.st, name)
    {
      hide KeepsNamed, VolumesGrown, VolumesShrunk, Sound, Fs.Wf, Made, Refused, ScannedBackstores, NextAfter;
      KeepsNamedRefl(client.server.st, name);
      var n: int := *;
      for i := 0 to Max(n, 0)
        invariant client.server.Valid() && fresh(client.server.Maps() - old(client.server.Maps()))
        invariant KeepsNamed(old(client.server.st), client.server.st, name)
      {
        ghost var before := client.server.st;
        SomethingElse(name);
        KeepsNamedTrans(old(client.server.st), before, client.server.st, name);
      }
    }

    method SomethingElse(name: string)
      requires client.server.Valid()
      modifies client.server, client.server.k, client.server.Maps()
      ensures client.server.Valid() && fresh(client.server.Maps() - old(client.server.Maps()))
      ensures KeepsNamed(old(client.server.st), client.server.st, name)
    {
      hide KeepsNamed, VolumesGrown, VolumesShrunk, Sound, Fs.Wf, Made, Refused, ScannedBackstores, NextAfter;
      ghost var before := client.server.st;
      KeepsNamedRefl(before, name);
      if * {
        client.server.k.Drift();
      } else if * {
        var e := client.server.ReconcileAll();
      } else if * {
        var request: CreateVolumeRequest := *;
        var res, code;
        ghost var id, reached, backstores;
        res, code, id, reached, backstores := client.CreateVolume(request);
        GrownKeepsNamed(before, client.server.st, request, id, name);
      } else if * {
        var request: DeleteVolumeRequest := *;
        var code := client.DeleteVolume(request);
        ShrunkKeepsNamed(before, client.server.st, request, name);
      } else if * {
        OtherPoolMade(name);
      } else if * {
        OtherPoolDeleted(name);
      } else {
        OtherStart(name);
      }
    }

    method OtherPoolMade(name: string)
      requires client.server.Valid()
      modifies client.server, client.server.k, client.server.Maps()
      ensures client.server.Valid() && fresh(client.server.Maps() - old(client.server.Maps()))
      ensures KeepsNamed(old(client.server.st), client.server.st, name)
    {
      hide CreatePoolOutcome, Sound, Fs.Wf;
      var poolId: Option<u32> := *;
      var other: string := *;
      if other == name { return; }
      var request := CreatePoolRequest(poolId, Some(other));
      ghost var before := client.server.Now();
      ValidIsKeyed(client.server);
      var res, code;
      ghost var id;
      res, code, id := client.server.CreatePool(request);
      if code !in {InvalidArgument, FailedPrecondition, ResourceExhausted} {
        PoolCallEffect(client.server.cfg, before, request, id, client.server.Now(), res, code);
      }
    }

    method OtherPoolDeleted(name: string)
      requires client.server.Valid()
      modifies client.server, client.server.k, client.server.Maps()
      ensures client.server.Valid() && fresh(client.server.Maps() - old(client.server.Maps()))
      ensures KeepsNamed(old(client.server.st), client.server.st, name)
    {
      hide DeletePoolOutcome, Sound, Fs.Wf, FreeTpgId, TargetListed;
      var poolId: u32 := *;
      var p := ToU16(poolId);
      if p in client.server.pools && client.server.pools[p].name == name { return; }
      ghost var before := client.server.Now();
      assert p in before.st.pools ==> before.st.pools[p].name != name;
      var res, code;
      ghost var target, cause;
      res, code, target, cause := client.server.DeletePool(poolId);
      if code != FailedPrecondition {
        Runs.DeletePoolRefines(client.server.cfg, before, poolId, target, client.server.Now(), code, cause);
      }
    }

    method OtherStart(name: string)
      requires client.server.Valid()
      modifies client.server, client.server.k, client.server.Maps()
      ensures client.server.Valid() && fresh(client.server.Maps() - old(client.server.Maps()))
      ensures KeepsNamed(old(client.server.st), client.server.st, name)
    {
      hide Sound, Fs.Wf;
      KeepsNamedRefl(client.server.st, name);
      if client.server.file.Holds? && KeepsNamed(client.server.Snapshot(), client.server.file.state, name) {
        client.server.Reload();
      }
    }

    /** Any sequence of attempts for one class, each stopped anywhere, each with the class as the
        last attempt left it or as the API server stores it, and anything else before each of
        them and between their calls. */
    method ProvisionAll(attempts: seq<Attempt>, sc: StorageClass) returns (rs: seq<Outcome>, ghost log: seq<Trace>)
      requires client.server.Valid()
      requires Bound(client.server.st, sc.parameters.poolName, sc.annotations, sc.stored)
      requires forall a | a in attempts :: Preset(a.claim) == 0
      modifies client.server, client.server.k, client.server.Maps(), sc
      ensures client.server.Valid() && |rs| == |log| == |attempts|
      ensures OneNamed(client.server.st, sc.parameters.poolName)
      ensures Bound(client.server.st, sc.parameters.poolName, sc.annotations, sc.stored)
      ensures forall i | 0 <= i < |rs| && rs[i].Provisioned? ::
                && Landed(client.server.cfg, attempts[i], log[i], rs[i].pv)
                && NamedPool(client.server.st, log[i].poolId, sc.parameters.poolName)
      ensures forall i, j | 0 <= i < |rs| && 0 <= j < |rs| && rs[i].Provisioned? && rs[j].Provisioned? ::
                log[i].poolId == log[j].poolId
      ensures forall i | 0 <= i < |rs| && rs[i].Failed? ::
                Explained(client, sc.parameters, sc.flaky, attempts[i], log[i], rs[i].failure)
    {
      hide Steps, Bound, NamedPool, ParseNumber, Points, Preset, KeepsNamed, Landed, OneNamed, Blocked, Found,
        VolumesNamed, ScannedBackstores, Sound, Fs.Wf, Explained, ResolveFails, VolumeFails, MountedBy, Lookup;
      rs, log := [], [];
      var name := sc.parameters.poolName;
      for i := 0 to |attempts|
        invariant client.server.Valid() && fresh(client.server.Maps() - old(client.server.Maps()))
        invariant |rs| == |log| == i
        invariant Bound(client.server.st, name, sc.annotations, sc.stored)
        invariant forall j | 0 <= j < i && rs[j].Provisioned? ::
                    Landed(client.server.cfg, attempts[j], log[j], rs[j].pv) &&
                        NamedPool(client.server.st, log[j].poolId, name)
        invariant forall j | 0 <= j < i && rs[j].Failed? ::
                    Explained(client, sc.parameters, sc.flaky, attempts[j], log[j], rs[j].failure)
      {
        ghost var start := client.server.st;
        Meanwhile(name);
        KeptStaysBound(start, client.server.st, name, sc.annotations, sc.stored);
        if * {
          StoredIsBound(client.server.st, name, sc.annotations, sc.stored);
          sc.Refresh();
        }
        ghost var before, annotations := client.server.st, sc.annotations;
        BoundParses(before, name, annotations, sc.stored);
        var r;
        ghost var trace, scan, answered;
        r, trace, scan, answered := Provision(attempts[i].claim, attempts[i].pvName, sc);
        assert Attempt(attempts[i].claim, attempts[i].pvName) == attempts[i];
        if r.Failed? {
          FailureExplained(client, sc.parameters, sc.flaky, annotations, attempts[i], trace, r.failure, scan, answered);
        }
        forall j | 0 <= j < i && rs[j].Provisioned? ensures NamedPool(client.server.st, log[j].poolId, name) {
          KeptStaysNamed(start, before, name, log[j].poolId);
          AttemptKeepsNamed(before, trace, attempts[i], name, log[j].poolId);
        }
        rs, log := rs + [r], log + [trace];
      }
      BoundIsOne(client.server.st, name, sc.annotations, sc.stored);
      forall i, j | 0 <= i < |rs| && 0 <= j < |rs| && rs[i].Provisioned? && rs[j].Provisioned?
        ensures log[i].poolId == log[j].poolId
      {
        OneNamedPool(client.server.st, name, log[i].poolId, log[j].poolId);
      }
    }

    /** The pool a persistent volume is in, by its annotation, the stored class's, or the name; 0
        when there is none of them. */
    method RecordedPool(pv: PersistentVolume, sc: StorageClass) returns (failure: Option<Failure>, poolId: u32)
      requires client.server.Valid()
      ensures var own, shared := Recorded(Lookup(pv.annotations, ANNOTATION_POOL_ID)),
                                 Recorded(Lookup(sc.stored, ANNOTATION_POOL_ID));
        && (own.None? || (own == Some(0) && shared.None?) <==> failure == Some(BadAnnotation))
        && (failure == Some(NoPoolName) <==> own == Some(0) && shared == Some(0) && sc.parameters.poolName == "")
        && (failure.Some? && failure.value !in {BadAnnotation, NoPoolName} ==>
              client.lossy && failure == Some(Rpc(Unavailable)) && own == Some(0) && shared == Some(0))
        && (own.Some? && own.value != 0 ==> failure.None? && poolId == own.value)
        && (own == Some(0) && shared.Some? && shared.value != 0 ==> failure.None? && poolId == shared.value)
        && (own == Some(0) && shared == Some(0) && failure.None? ==>
              if poolId == 0
              then forall p | p in client.server.st.pools :: client.server.st.pools[p].name != sc.parameters.poolName
              else NamedPool(client.server.st, poolId, sc.parameters.poolName))
    {
      hide Sound, Recorded, Fs.Wf;
      var ok;
      ok, poolId := Annotated(Lookup(pv.annotations, ANNOTATION_POOL_ID));
      if !ok { return Some(BadAnnotation), poolId; }
      if poolId == 0 {
        ok, poolId := Annotated(Lookup(sc.stored, ANNOTATION_POOL_ID));
        if !ok { return Some(BadAnnotation), poolId; }
      }
      failure := None;
      if poolId == 0 { failure, poolId := LookUpPool(sc.parameters.poolName); }
    }

    /** The volume's id by its annotation, or that of some volume of the pool if the pool itself
        has the volume's name. */
    method RecordedVolume(pv: PersistentVolume, poolId: u32) returns (failure: Option<Failure>, volumeId: u32)
      requires client.server.Valid()
      ensures var own, p, pools := Recorded(Lookup(pv.annotations, ANNOTATION_VOLUME_ID)), ToU16(poolId),
                                   client.server.st.pools;
        && (own.None? <==> failure == Some(BadAnnotation))
        && (own.Some? && own.value != 0 ==> failure.None? && volumeId == own.value)
        && (own == Some(0) && failure.Some? ==>
              && failure.value.Rpc?
              && (|| (client.lossy && failure.value.code == Unavailable)
                  || !(p in pools && pools[p].name == pv.name && pools[p].volumes != map[])))
        && (own == Some(0) && failure.None? ==>
              p in pools && pools[p].name == pv.name && volumeId != 0 && volumeId in pools[p].volumes)
    {
      hide Sound, Recorded, InfoFrom, Fs.Wf;
      var ok;
      ok, volumeId := Annotated(Lookup(pv.annotations, ANNOTATION_VOLUME_ID));
      if !ok { return Some(BadAnnotation), volumeId; }
      if volumeId == 0 {
        var info, code;
        ghost var answered;
        info, code, answered := client.GetVolume(GetVolumeRequest(poolId, None, Some(pv.name)));
        if code != OK { return Some(Rpc(code)), volumeId; }
        InfoHasId(client.server, info, ToU16(poolId));
        volumeId := info.volumeId;
      }
      failure := None;
    }

    /** Pool and volume, with anything else between the two lookups; pool 0 when none can be found. */
    method Locate(pv: PersistentVolume, sc: StorageClass)
      returns (failure: Option<Failure>, poolId: u32, volumeId: u32)
      requires client.server.Valid()
      modifies client.server, client.server.k, client.server.Maps()
      ensures client.server.Valid() && fresh(client.server.Maps() - old(client.server.Maps()))
      ensures KeepsNamed(old(client.server.st), client.server.st, sc.parameters.poolName)
      ensures failure == Some(BadAnnotation) ==> BadRecords(pv, sc.stored)
      ensures failure.Some? ==>
          && failure.value !in {NoClass, NoServerAddr}
          && (failure.value in {BadAnnotation, NoPoolName} || Unrecorded(pv, sc.stored))
      ensures failure.None? && poolId == 0 ==>
          forall p | p in client.server.st.pools :: client.server.st.pools[p].name != sc.parameters.poolName
      ensures forall p: u32, v: u32 | Records(pv, p, v) && p != 0 && v != 0 ::
          failure.None? ==> poolId == p && volumeId == v
    {
      hide Sound, ParseNumber, Dec, Lookup, Records, Recorded, NamedPool, Fs.Wf, KeepsNamed;
      var name := sc.parameters.poolName;
      RecordsParse(pv);
      KeepsNamedRefl(client.server.st, name);
      volumeId := 0;
      failure, poolId := RecordedPool(pv, sc);
      if failure.Some? || poolId == 0 { return; }
      Meanwhile(name);
      failure, volumeId := RecordedVolume(pv, poolId);
    }

    /** The class is read from the API server.  A volume whose pool id cannot be found counts
        as deleted.  Anything may happen between the calls; `before` is the server when the
        delete was sent. */
    method Delete(pv: PersistentVolume, sc: StorageClass)
      returns (failure: Option<Failure>, ghost request: Option<DeleteVolumeRequest>, ghost before: World)
      requires client.server.Valid()
      modifies client.server, client.server.k, client.server.Maps()
      ensures client.server.Valid() && fresh(client.server.Maps() - old(client.server.Maps()))
      ensures KeepsNamed(old(client.server.st), before.st, sc.parameters.poolName)
      ensures request.None? ==> client.server.st == before.st
      ensures request.Some? && failure.Some? ==>
          && failure.value.Rpc?
          && (|| (client.lossy && failure.value.code == Unavailable)
              || DeleteRefused(client.server, before, request.value, failure.value.code))
      ensures failure == Some(NoClass) ==> sc.flaky
      ensures failure == Some(NoServerAddr) || failure == Some(NoClass) || sc.parameters.serverAddr != ""
      ensures failure == Some(NoServerAddr) ==> sc.parameters.serverAddr == ""
      ensures failure == Some(BadAnnotation) ==> BadRecords(pv, sc.stored)
      ensures request.None? && failure.Some? ==>
          failure.value in {NoClass, NoServerAddr, BadAnnotation, NoPoolName} || Unrecorded(pv, sc.stored)
      ensures request.None? && failure.None? ==>
          forall p | p in client.server.st.pools :: client.server.st.pools[p].name != sc.parameters.poolName
      ensures request.Some? ==> VolumesShrunk(before.st, client.server.st, request.value)
      ensures request.Some? && failure.None? ==>
          && request.value.poolId < U16_LIMIT
          && client.server.st == DropVolume(before.st, request.value.poolId, ToU16(request.value.volumeId))
      ensures request.Some? && request.value.poolId >= U16_LIMIT ==> client.server.st == before.st
      ensures forall p: u32, v: u32 | Records(pv, p, v) && p != 0 && v != 0 ::
          (request.Some? ==> request.value == DeleteVolumeRequest(p, v)) && (failure.None? ==> request.Some?)
    {
      hide VolumesShrunk, DropVolume, Sound, ParseNumber, Dec, Lookup, Records, Fs.Wf, KeepsNamed, DeleteRefused,
        BadRecords, Unrecorded;
      var name := sc.parameters.poolName;
      request, before := None, client.server.Now();
      KeepsNamedRefl(before.st, name);
      if sc.flaky { if * { return Some(NoClass), request, before; } }
      if sc.parameters.serverAddr == "" { return Some(NoServerAddr), request, before; }
      var poolId, volumeId;
      failure, poolId, volumeId := Locate(pv, sc);
      before := client.server.Now();
      if failure.Some? || poolId == 0 { return; }
      ghost var now := before.st;
      Meanwhile(name);
      before := client.server.Now();
      KeepsNamedTrans(old(client.server.st), now, before.st, name);
      request := Some(DeleteVolumeRequest(poolId, volumeId));
      var code := client.DeleteVolume(DeleteVolumeRequest(poolId, volumeId));
      failure := if code == OK then None else Some(Rpc(code));
    }
  }

  /** An annotation that a delete reads does not parse. */
  predicate BadRecords(pv: PersistentVolume, stored: Annotations) {
    || Recorded(Lookup(pv.annotations, ANNOTATION_POOL_ID)).None?
    || Recorded(Lookup(stored, ANNOTATION_POOL_ID)).None?
    || Recorded(Lookup(pv.annotations, ANNOTATION_VOLUME_ID)).None?
  }

  /** The annotations leave the pool or the volume to be looked up. */
  predicate Unrecorded(pv: PersistentVolume, stored: Annotations) {
    || (Recorded(Lookup(pv.annotations, ANNOTATION_POOL_ID)) == Some(0)
        && Recorded(Lookup(stored, ANNOTATION_POOL_ID)) == Some(0))
    || Recorded(Lookup(pv.annotations, ANNOTATION_VOLUME_ID)) == Some(0)
  }

  lemma RecordsParse(pv: PersistentVolume)
    ensures forall p: u32, v: u32 | Records(pv, p, v) ::
              && Recorded(Lookup(pv.annotations, ANNOTATION_POOL_ID)) == Some(p)
              && Recorded(Lookup(pv.annotations, ANNOTATION_VOLUME_ID)) == Some(v)
  {
    hide Dec, Lookup;
  }

  lemma InfoHasId(server: Server, info: VolumeInfo, p: u16)
    requires server.Valid() && p in server.st.pools && InfoFrom(server.cfg, info, server.st.pools[p], None)
    ensures info.volumeId != 0 && info.volumeId in server.st.pools[p].volumes
  {
    hide Iqn;
  }

  lemma PresetIs(claim: Claim)
    ensures var own := Recorded(Lookup(claim.annotations, ANNOTATION_POOL_ID));
            Preset(claim) == if own.Some? then own.value else 0
  {
    hide Dec;
  }

  /** What can keep a claim from getting a pool; `before` is the server when one was to be made. */
  ghost predicate ResolveFails(
      client: SigmaClient, claim: Claim, annotations: Annotations, name: string, before: World,
      failure: Option<Failure>)
  {
    var own, shared := Recorded(Lookup(claim.annotations, ANNOTATION_POOL_ID)),
                       Recorded(Lookup(annotations, ANNOTATION_POOL_ID));
    var neither := own == Some(0) && shared == Some(0);
    && (failure == Some(BadAnnotation) <==> own.None? || (own == Some(0) && shared.None?))
    && (failure == Some(NoPoolName) <==> neither && name == "")
    && (failure.Some? && failure.value !in {BadAnnotation, NoPoolName} ==>
          && failure.value.Rpc? && neither && name != ""
          && (|| (client.lossy && failure.value.code == Unavailable)
              || PoolRefused(client.server, before, CreatePoolRequest(None, Some(name)), failure.value.code)))
  }

  lemma ResolveFailures(
      client: SigmaClient, claim: Claim, annotations: Annotations, name: string, before: World,
      failure: Option<Failure>)
    requires failure.Some? && ResolveFails(client, claim, annotations, name, before, failure)
    ensures failure.value in {BadAnnotation, NoPoolName} || failure.value.Rpc?
  {
    hide PoolRefused;
  }

  /** What else can keep a volume from being made; `made` is the server when it was asked. */
  ghost predicate VolumeFails(
      client: SigmaClient, made: World, claim: Claim, pvName: string, poolId: u32, id: u16, failure: Failure)
  {
    && failure.Rpc?
    && (|| (client.lossy && failure.code == Unavailable)
        || VolumeRefused(client.server, made, VolumeRequest(claim, pvName, poolId), id, failure.code))
  }

  lemma VolumeFailures(
      client: SigmaClient, made: World, claim: Claim, pvName: string, poolId: u32, id: u16, failure: Failure)
    requires VolumeFails(client, made, claim, pvName, poolId, id, failure)
    ensures failure.Rpc?
  {
  }

  /** Why an attempt failed for a class that does not send it to another pool. */
  ghost predicate Explained(
      client: SigmaClient, parameters: Parameters, flaky: bool, a: Attempt, t: Trace, failure: Failure)
  {
    match failure
    case SelectorGiven => a.claim.selector
    case NoServerAddr => parameters.serverAddr == ""
    case BadAnnotation => Recorded(Lookup(a.claim.annotations, ANNOTATION_POOL_ID)).None?
    case NoPoolName => parameters.poolName == ""
    case UpdateFailed => flaky
    case Rpc(code) =>
      || (client.lossy && code == Unavailable)
      || PoolRefused(client.server, t.before, CreatePoolRequest(None, Some(parameters.poolName)), code)
      || VolumeRefused(client.server, t.made, VolumeRequest(a.claim, a.pvName, t.poolId), t.id, code)
    case NilReply =>
      VolumesNamed(t.made.st) ==>
        && ScannedBackstores(t.made.fs, []) && Blocked(t.made.st, t.poolId, Some([]))
        && (client.lossy || !Found(t.done, a.claim, a.pvName, t.poolId))
    case _ => false
  }

  lemma FailureExplained(
      client: SigmaClient, parameters: Parameters, flaky: bool, annotations: Annotations, a: Attempt, t: Trace,
      failure: Failure, scan: Option<seq<Backstore>>, answered: bool)
    requires Recorded(Lookup(annotations, ANNOTATION_POOL_ID)).Some?
    requires failure == SelectorGiven ==> a.claim.selector
    requires failure == NoServerAddr ==> parameters.serverAddr == ""
    requires failure !in {SelectorGiven, NoServerAddr, NilReply} ==>
      || ResolveFails(client, a.claim, annotations, parameters.poolName, t.before, Some(failure))
      || (failure == UpdateFailed && flaky)
      || VolumeFails(client, t.made, a.claim, a.pvName, t.poolId, t.id, failure)
    requires scan.Some? ==> ScannedBackstores(t.made.fs, scan.value)
    requires VolumesNamed(t.made.st) && failure == NilReply ==>
      Blocked(t.made.st, t.poolId, scan) && !(answered && Found(t.done, a.claim, a.pvName, t.poolId))
    requires VolumesNamed(t.made.st) && Blocked(t.made.st, t.poolId, scan) && !client.lossy ==> answered
    ensures Explained(client, parameters, flaky, a, t, failure)
  {
    hide PoolRefused, VolumeRefused, VolumesNamed, ScannedBackstores, Found, Recorded, Lookup, VolumeRequest;
  }

  lemma VolumeIsNamed(claim: Claim, pvName: string, poolId: u32)
    ensures forall id: u16 :: NewVolume(VolumeRequest(claim, pvName, poolId), id).name != ""
  {
    assert VolumeName(claim, pvName)[|claim.namespace|] == '-';
  }

  /** How a node mounts the volume: under the claim's volume name, by the class's portal and file
      system. */
  predicate MountedBy(pv: PersistentVolume, pvName: string, parameters: Parameters) {
    && pv.name == pvName
    && pv.targetPortal == parameters.targetPortal
    && pv.fsType == (if parameters.fsType == "" then "ext4" else parameters.fsType)
    && Lookup(pv.annotations, ANNOTATION_STATUS) == "RESOURCE_ACTIVE"
  }

  lemma PvMounts(pvName: string, parameters: Parameters, info: VolumeInfo)
    requires info.lun >= 0 && info.status == Active
    ensures MountedBy(PvOf(pvName, parameters, info), pvName, parameters)
  {
    hide Dec;
  }

  datatype Attempt = Attempt(claim: Claim, pvName: string)

  /** The server before and the registry after a pool was found or made, the server before and
      after the volume was, and the registry at the end. */
  datatype Trace = Trace(
    before: World, resolved: State, made: World, after: World, done: State, poolId: u32, id: u16)

  /** What an attempt does itself, and that everything between its calls keeps the pools of the name. */
  ghost predicate Steps(s: State, t: Trace, a: Attempt, name: string) {
    && KeepsNamed(s, t.before.st, name)
    && PoolsGrown(t.before.st, t.resolved, name)
    && KeepsNamed(t.resolved, t.made.st, name)
    && VolumesGrown(t.made.st, t.after.st, VolumeRequest(a.claim, a.pvName, t.poolId), t.id)
    && KeepsNamed(t.after.st, t.done, name)
  }

  /** The trace of an attempt that stops before it does anything. */
  ghost function Standstill(w: World, claim: Claim, pvName: string, name: string): (t: Trace)
    ensures Steps(w.st, t, Attempt(claim, pvName), name) && t.done == w.st && t.made == w
  {
    Trace(w, w.st, w, w, w.st, 0, 0)
  }

  /** The trace of one that stops before it makes a volume. */
  ghost function Resolved(
      w: World, claim: Claim, pvName: string, name: string, before: World, resolved: State, poolId: u32): (t: Trace)
    requires PoolsGrown(before.st, resolved, name) && KeepsNamed(resolved, w.st, name)
    ensures forall s | KeepsNamed(s, before.st, name) :: Steps(s, t, Attempt(claim, pvName), name)
    ensures t.done == w.st && t.made == w && t.poolId == poolId && t.before == before
  {
    KeepsNamedRefl(w.st, name);
    NothingGrown(w.st, VolumeRequest(claim, pvName, poolId), 0);
    Trace(before, resolved, w, w, w.st, poolId, 0)
  }

  /** The attempt's volume is in the pool the trace names, new there or found there by name. */
  ghost predicate Landed(c: ServerConfig, a: Attempt, t: Trace, pv: PersistentVolume) {
    || NewlyProvisioned(c, t.made, t.after, a.claim, a.pvName, t.poolId, t.id, pv)
    || FoundByName(c, t.done, a.claim, a.pvName, t.poolId, pv)
  }

  /** The pools with the name are the same. */
  predicate KeepsNamed(s: State, t: State, name: string) {
    && (forall p | p in s.pools && s.pools[p].name == name :: p in t.pools && t.pools[p].name == name)
    && (forall p | p in t.pools && t.pools[p].name == name :: p in s.pools && s.pools[p].name == name)
  }

  lemma KeepsNamedRefl(s: State, name: string)
    ensures KeepsNamed(s, s, name)
  {
  }

  lemma KeepsNamedTrans(s: State, t: State, u: State, name: string)
    requires KeepsNamed(s, t, name) && KeepsNamed(t, u, name)
    ensures KeepsNamed(s, u, name)
  {
  }

  lemma GrownKeepsNamed(s: State, t: State, inn: CreateVolumeRequest, id: u16, name: string)
    requires VolumesGrown(s, t, inn, id)
    ensures KeepsNamed(s, t, name)
  {
  }

  lemma ShrunkKeepsNamed(s: State, t: State, inn: DeleteVolumeRequest, name: string)
    requires VolumesShrunk(s, t, inn)
    ensures KeepsNamed(s, t, name)
  {
  }

  lemma KeptStaysNamed(s: State, t: State, name: string, poolId: u32)
    requires KeepsNamed(s, t, name) && NamedPool(s, poolId, name)
    ensures NamedPool(t, poolId, name)
  {
  }

  lemma KeptStaysBound(s: State, t: State, name: string, annotations: Annotations, stored: Annotations)
    requires KeepsNamed(s, t, name) && Bound(s, name, annotations, stored)
    ensures Bound(t, name, annotations, stored)
  {
    KeptStaysPointed(s, t, name, annotations);
    KeptStaysPointed(s, t, name, stored);
  }

  lemma KeptStaysPointed(s: State, t: State, name: string, annotations: Annotations)
    requires KeepsNamed(s, t, name) && Points(s, annotations, name)
    ensures Points(t, annotations, name)
  {
  }

  lemma KeptPool(
      s: State, t: State, name: string, annotations: Annotations, stored: Annotations, poolId: u32)
    requires KeepsNamed(s, t, name) && Bound(s, name, annotations, stored) && NamedPool(s, poolId, name)
    ensures Bound(t, name, annotations, stored) && NamedPool(t, poolId, name)
  {
    hide KeepsNamed, Bound, NamedPool;
    KeptStaysBound(s, t, name, annotations, stored);
    KeptStaysNamed(s, t, name, poolId);
  }

  lemma AttemptKeepsNamed(s: State, t: Trace, a: Attempt, name: string, poolId: u32)
    requires NamedPool(s, poolId, name) && Steps(s, t, a, name)
    ensures NamedPool(t.done, poolId, name)
  {
    hide KeepsNamed, VolumesGrown;
    KeptStaysNamed(s, t.before.st, name, poolId);
    assert NamedPool(t.resolved, poolId, name);
    KeptStaysNamed(t.resolved, t.made.st, name, poolId);
    GrownKeepsNamed(t.made.st, t.after.st, VolumeRequest(a.claim, a.pvName, t.poolId), t.id, name);
    KeptStaysNamed(t.made.st, t.after.st, name, poolId);
    KeptStaysNamed(t.after.st, t.done, name, poolId);
  }

  lemma OneNamedPool(s: State, name: string, poolId: u32, other: u32)
    requires OneNamed(s, name) && NamedPool(s, poolId, name) && NamedPool(s, other, name)
    ensures poolId == other
  {
  }

  lemma StoredIsBound(s: State, name: string, annotations: Annotations, stored: Annotations)
    requires Bound(s, name, annotations, stored)
    ensures Bound(s, name, stored, stored)
  {
  }

  lemma BoundIsOne(s: State, name: string, annotations: Annotations, stored: Annotations)
    requires Bound(s, name, annotations, stored)
    ensures OneNamed(s, name)
  {
  }

  // Refusals.

  /** Nothing was listed when an id was allocated, and the pool has a volume 1. */
  predicate Blocked(s: State, poolId: u32, scan: Option<seq<Backstore>>) {
    scan == Some([]) && ToU16(poolId) in s.pools && 1 in s.pools[ToU16(poolId)].volumes
  }

  /** The pool happens to have the name that the volume is to have, and a volume. */
  predicate Found(s: State, claim: Claim, pvName: string, poolId: u32) {
    var p := ToU16(poolId);
    p in s.pools && s.pools[p].name == VolumeName(claim, pvName) && s.pools[p].volumes != map[]
  }

  lemma RefusedIffBlocked(s: State, poolId: u32, backstores: seq<Backstore>, id: u16)
    requires Sound(s) && VolumesNamed(s) && NextAfter(backstores, s.maxLunId, id)
    ensures Refused(s, poolId, id) <==> Blocked(s, poolId, Some(backstores))
  {
    hide Sound, VolumesNamed, NextAfter, VolumeConflict;
    if ToU16(poolId) in s.pools {
      Guarantees.AllocatedIdRefusedIff(s, backstores, ToU16(poolId), id);
    }
  }

  lemma NotBlocked(s: State, poolId: u32)
    ensures !Blocked(s, poolId, None)
  {
  }

  lemma InfoHasLun(c: ServerConfig, info: VolumeInfo, pool: StatePool)
    requires InfoFrom(c, info, pool, None)
    ensures info.lun >= 0 && info.status == Active
  {
    hide Iqn;
  }

  lemma MadeHasLun(c: ServerConfig, w: World, w': World, inn: CreateVolumeRequest, id: u16, info: VolumeInfo)
    requires Made(c, w, w', inn, id, info)
    ensures info.lun >= 0 && info.status == Active
  {
    hide Exports, VolumeAdded, NewVolume, Iqn;
  }

  lemma FoundIsFound(
      c: ServerConfig, s: State, claim: Claim, pvName: string, poolId: u32, parameters: Parameters, info: VolumeInfo)
    requires ToU16(poolId) in s.pools && s.pools[ToU16(poolId)].name == VolumeName(claim, pvName) && info.poolId == 0
    requires InfoFrom(c, info, s.pools[ToU16(poolId)], None) && info.lun >= 0
    ensures FoundByName(c, s, claim, pvName, poolId, PvOf(pvName, parameters, info))
  {
    hide Iqn, Dec, VolumeName;
  }

  lemma MadeIsProvisioned(
      c: ServerConfig, w: World, w': World, claim: Claim, pvName: string, poolId: u32, id: u16, parameters: Parameters,
      info: VolumeInfo)
    requires Made(c, w, w', VolumeRequest(claim, pvName, poolId), id, info) && info.lun >= 0
    ensures NewlyProvisioned(c, w, w', claim, pvName, poolId, id, PvOf(pvName, parameters, info))
  {
    hide Iqn, Dec, VolumeAdded, DeviceOf, FileOf, HbaName, TpgName, LunName;
  }

  // Provisioning and deleting.

  /** The volume that was provisioned is the one that is deleted, and nothing else is, whatever
      happened in between; that takes a pool id below 65536, because the server truncates the
      id when it creates and compares it whole when it deletes. */
  lemma DeleteUndoesProvision(
      c: ServerConfig, w: World, w': World, claim: Claim, pvName: string, poolId: u32, id: u16, pv: PersistentVolume,
      later: State, request: DeleteVolumeRequest, after: State)
    requires NewlyProvisioned(c, w, w', claim, pvName, poolId, id, pv) && poolId != 0
    requires forall p: u32, v: u32 | Records(pv, p, v) && p != 0 && v != 0 :: request == DeleteVolumeRequest(p, v)
    requires request.poolId < U16_LIMIT && after == DropVolume(later, request.poolId, ToU16(request.volumeId))
    ensures VolKeys(after) == VolKeys(later) - {VolKey(poolId, id)}
    ensures forall k | k in VolKeys(after) :: VolOf(after, k) == VolOf(later, k)
    ensures after.pools.Keys == later.pools.Keys
    ensures later == w'.st ==> after == Bump(w.st, id)
  {
    hide Dec, Iqn, Exports, LunName, TpgName;
    assert request == DeleteVolumeRequest(poolId, id);
    Runs.KeysLessVolume(later, poolId, id);
    Runs.VolumesLeft(later, poolId, id);
    if later == w'.st {
      assert after.pools[poolId].volumes == w.st.pools[poolId].volumes;
      assert after.pools == w.st.pools;
    }
  }

  lemma NoPoolsGrown(s: State, name: string)
    ensures PoolsGrown(s, s, name)
  {
  }

  lemma BoundParses(s: State, name: string, annotations: Annotations, stored: Annotations)
    requires Bound(s, name, annotations, stored)
    ensures var n := Recorded(Lookup(annotations, ANNOTATION_POOL_ID));
            n.Some? && (n.value != 0 ==> NamedPool(s, n.value, name))
  {
    if Lookup(annotations, ANNOTATION_POOL_ID) != "" { PointsParses(s, name, annotations); }
  }

  /** The volume was made for the claim in the pool, and the persistent volume says which it is
      and names the LUN that the kernel exports. */
  ghost predicate NewlyProvisioned(
      c: ServerConfig, w: World, w': World, claim: Claim, pvName: string, poolId: u32, id: u16, pv: PersistentVolume)
  {
    var p, request := ToU16(poolId), VolumeRequest(claim, pvName, poolId);
    && VolumeAdded(w.st, w'.st, request, id)
    && Records(pv, poolId, id)
    && pv.name == pvName
    && pv.iqn == Iqn(c.baseIqn, w.st.pools[p].name) == Lookup(pv.annotations, ANNOTATION_IQN)
    && pv.lun == id && Lookup(pv.annotations, ANNOTATION_LUN) == Dec(id)
    && Lookup(pv.annotations, ANNOTATION_VOLUME_NAME) == claim.namespace + "-" + claim.name + "-" + pvName
    && Lookup(pv.annotations, ANNOTATION_VOLUME_SIZE) == Dec(claim.request)
    && LunPath(TpgPath(pv.iqn, TpgName(p)), LunName(id)) in w'.fs.luns
    && Exports(c, w.fs, w'.fs, w.st.pools[p], NewVolume(request, id))
  }

  /** The create was refused; the volume is whichever the server finds, which takes a pool that
      has the volume's name, and the annotation names pool 0. */
  ghost predicate FoundByName(
      c: ServerConfig, t: State, claim: Claim, pvName: string, poolId: u32, pv: PersistentVolume)
  {
    var p := ToU16(poolId);
    && p in t.pools
    && t.pools[p].name == VolumeName(claim, pvName)
    && pv.iqn == Iqn(c.baseIqn, t.pools[p].name)
    && pv.iqn == Lookup(pv.annotations, ANNOTATION_IQN)
    && exists v | v in t.pools[p].volumes ::
         var volume := t.pools[p].volumes[v];
         && Records(pv, 0, volume.id)
         && pv.lun == volume.id && Lookup(pv.annotations, ANNOTATION_LUN) == Dec(volume.id)
         && Lookup(pv.annotations, ANNOTATION_VOLUME_NAME) == volume.name
         && Lookup(pv.annotations, ANNOTATION_VOLUME_SIZE) == Dec(ToU64(volume.size))
  }

  /** The pool a claim asks for itself, 0 when it leaves that to its class. */
  function Preset(claim: Claim): u32 {
    match ParseNumber(Lookup(claim.annotations, ANNOTATION_POOL_ID))
    case None => 0
    case Some(n) => n
  }
}
