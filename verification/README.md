# Shortrack: the Sigma storage server, its reconciler and its Kubernetes provisioner

Sigma is a storage server. Its registry is a two-level map of pools and volumes; each call edits
that registry together with a second world, the Linux LIO target tree in configfs (target
directories, portal groups, portals, LUNs linked to backstores) and the disk files behind it. Any
step in that world can fail and leave the edit half done. A reconcile runs at start-up and then
every second, and has to bring whatever tree it finds back to what the registry says. A Kubernetes
provisioner drives the server for storage classes.

The project proves:

* **Convergence.** For every well-formed registry and every managed kernel, and for every order in
  which maps and directories are read, a reconcile that reports success ends with a view equal to
  the one the registry asks for; on the way it meets no removal out of order, keeps the kernel
  managed, and never puts anything off that was right; and if the machine answers every call it is
  a success. On any kernel it leaves other servers' targets and all other disk files alone
  (`Reconciler.ReconcileAll`, `Convergence`).
* **Recovery.** A call stopped by a failure anywhere leaves a kernel that the next complete
  reconcile brings to the current registry: aborted creates vanish, aborted deletes come back byte
  for byte, and on a healthy server nothing but a failure aborts a delete (`Recovery`, `Guarantees`).
* **Runs.** Over every interleaving of commits, reconciles, restarts and reboots, with scans as stale
  as they like and creates refused as often as they like, the registry is the one a sequential
  registry reaches by the same calls in commit order, no create overwrites anything, ids and
  high-water mark behave, a restart loses nothing that was acknowledged, and the server stays one
  that a reconcile can repair, from memory and from its file, as long as creates use what nobody
  else has (`Runs`); that condition is exact (`Limits`).
* **Memory.** Each pool's volumes are an object of their own; no two pools share one, and a call
  changes one entry of one of them (`SigmaServer.Server`).
* **Provisioning.** One pool per storage class over any sequence of attempts with anything else
  between them and between their calls, and a delete that removes exactly the volume that was
  provisioned (`K8sProvisioner`).
* **Limits.** Where the code falls short of what it means to do, a concrete input and the exact
  condition under which it does not (`Limits`).

## How it is built

| file | what it holds |
|---|---|
| `Types.dfy`, `Names.dfy` | machine integers, the registry, messages; decimal and directory names |
| `Kernel.dfy` | the configfs tree and the disk files as one value `Fs`, and the class `Kernel` whose methods are the system calls; on a flaky machine every one may fail with `Fault` and then changes nothing, and on any other none does |
| `Frames.dfy`, `Lio.dfy` | what each helper may have changed when it stops, and the helpers |
| `Convergence.dfy` | goal, view, drift, managed kernels, and the relation `Toward` that every prefix of a reconcile satisfies |
| `Registry.dfy`, `Steps.dfy`, `Reconciler.dfy` | the goal of a registry, and the reconcile loop phase by phase |
| `Outcomes.dfy`, `Server.dfy` | what a call may do as a relation between worlds, and the class `Server` whose methods promise it |
| `Recovery.dfy`, `Guarantees.dfy`, `Runs.dfy`, `Limits.dfy` | theorems about calls, about whole runs, and about where they stop holding |
| `Provisioner.dfy` | the provisioner, its client and the storage class |

The methods follow the source statement by statement. Each call that scans before it takes the
write lock is split into a scan and a commit; the commit takes the scan's result as an argument and
its contract holds for any value of it, which is what makes the theorems about stale scans possible.
Every kernel mutation of a call or of a reconcile happens under the lock, so a run is a sequence of
commits and reconciles.

Failures from outside are the choice of four constants: a flaky kernel, a flaky disk under the
state file, a lossy network, a flaky API server. Where they are off, contracts say exactly which
reply or error each input gets; where they are on, what may happen short of that.

A kernel is *managed* when a reconcile can repair it: entries under this server's base name have
names the server writes, a portal group that has to go is alone in its target directory, no live id
sits under a stale name or link, backstore directories hold one device each, and all links are this
server's (`Convergence.Managed`). A registry is *well formed* when pool names, volume ids and disk
files are not shared and volume names are not empty (`Registry.WellFormed`). The server checks this
only in part; `Limits` says exactly which part. A server is *healthy* when its registry is well
formed, its kernel is *tidy* (a property that does not mention the registry) and nothing stands
under a registered id that is not what is registered (`Recovery.Healthy`); a healthy server's kernel
is managed. It is *durable* when it would be healthy started from its file, too (`Runs.Durable`).

Where code and intent differ the model follows the code:

* The name checks of `CreatePool` and `CreateVolume` compare a name that has not been assigned yet.
* Growing a disk file goes through `os.Create`, which empties it; and a stat that fails for any
  reason counts as a missing file, so a transient stat error empties a full one. `Fs.statFaults`
  counts those errors for each file; theorems about bytes assume none for the files they speak of.
* `CreateVolume` writes device size 0 and uses the raw size, the reconcile a floor of 1 GiB.
* The unit serial of a device is its volume's name, which other pools may use too.
* A volume name that is given but empty makes `WriteConfig` dereference a missing file mode: the
  call crashes the server (`Crashed`), and only a restart can follow.
* Dead targets are told by id alone, and the allocator looks at the kernel's ids but not at its
  target names: a pool create that is tried again after it aborted gets a second portal group in
  the first one's directory.
* `DeletePool` of a pool without a listed target works on the zero target.
* Pool ids are truncated to 16 bits everywhere but in `DeleteVolume`.
* `GetVolume` by name compares the pool's name, and reports pool 0.
* `Provision` drops the error of its fallback lookup and then dereferences the missing reply.

## Model

| member | source | states |
|---|---|---|
| Names.ParseOfDec | sigma/sigma.go:994-1003 | printing an id and parsing it with a width gives it back exactly when it fits the width |
| Names.DecInjective | sigma/sigma.go:1070 | two ids print alike only if they are equal, so directory names of distinct ids are distinct |
| Names.DecOfParse | sigma/sigma.go:1181 | a parsed string prints back to itself exactly when it is canonical, which is why only canonical names can be deleted by id |
| Names.TpgName | sigma/sigma.go:1239 | the name of a portal group parses back to its id |
| Names.LunName | sigma/sigma.go:1396 | the name of a LUN parses back to its id |
| Names.HbaRoundTrip | sigma/sigma.go:994-1003 | the directory name of a backstore splits and parses back to its type and id |
| Names.HbaName | sigma/sigma.go:1070 | for any type without an underscore the backstore name carries type and id |
| Names.Iqn | sigma/sigma.go:119 | the target name of a pool is recognised as ours and gives the pool name back |
| Names.IqnRoundTrip | sigma/sigma.go:1161-1167 | stripping the base name from a target of ours and adding it again changes nothing |
| Types.ToI64 | sigma/sigma.go:567 | a size becomes the signed 64-bit number equal to it modulo 2^64 |
| Types.SizeComesBack | sigma/sigma.go:546 | a size survives being stored as a signed number |
| Registry.VolumeLayout | sigma/sigma.go:1070 | where a volume's LUN, backstore and disk file are, written out |
| Lio.ListTargets | sigma/sigma.go:1148-1194 | reports exactly the portal groups with legible names under this server's base name; a name that does not parse fails the listing |
| Lio.ListPortals | sigma/sigma.go:1263-1285 | reports exactly the portals of the group, none when it is absent |
| Lio.ListLUNs | sigma/sigma.go:1320-1349 | reports exactly the legible LUN ids of the group |
| Lio.ListBackstores | sigma/sigma.go:977-1036 | reports one device of every backstore directory that has one, and nothing else |
| Lio.DeleteLUN | sigma/sigma.go:1351-1388 | removes links then LUN, touches nothing else, and never meets a refusal |
| Lio.UpsertLUN | sigma/sigma.go:1390-1415 | adds only the directories down to the LUN and one link, leaving an existing link as it is |
| Lio.UpsertTarget | sigma/sigma.go:1230-1261 | touches one portal group only; when complete it has the four attributes the server sets |
| Lio.DeletePortal | sigma/sigma.go:1287-1301 | removes at most that portal, and an absent one is no error |
| Lio.UpsertPortal | sigma/sigma.go:1303-1318 | adds only the directories down to the portal |
| Lio.DeleteTarget | sigma/sigma.go:1196-1228 | cuts one target only; with legible LUNs it meets no refusal if the portal group is alone in its directory, and cannot succeed if it is not; on the zero target it succeeds only if there is no target at all |
| Lio.DeleteBackstore | sigma/sigma.go:1038-1066 | cuts one backstore directory only, and is refused only when a LUN links into it |
| Lio.UpsertBackstore | sigma/sigma.go:1068-1146 | touches one device only; when complete the device has file, size and write cache and is enabled, and its unit serial is the one it had or else its name; without a name it can only fail or crash |
| Lio.TouchDiskFile | sigma/sigma.go:911-949 | a file that is large enough keeps its bytes if its stat is answered; otherwise the file becomes exactly the wanted number of zeros |
| Lio.DeleteDiskFile | sigma/sigma.go:951-957 | removes exactly the file, an absent one is no error |
| Lio.SetupLIO | sigma/sigma.go:959-975 | makes the target root and nothing else |
| Convergence.ConvergedIffNothingOff | sigma/sigma.go:92-226 | view equals desired view, with files large enough, if and only if no portal group, portal, LUN, link or device is off |
| Convergence.TowardTrans | sigma/sigma.go:92-226 | what prefixes of reconciles may do composes |
| Convergence.TowardKeepsManaged | sigma/sigma.go:101-223 | every step of a reconcile keeps a managed kernel managed |
| Convergence.TowardShrinksDrift | sigma/sigma.go:101-223 | no step of a reconcile puts an item off that was not, as long as the stats of the volumes' files are answered |
| Convergence.ConvergedIsStable | sigma/sigma.go:165-196 | after a complete reconcile further reconciles, complete or not, change neither the view nor any byte on disk |
| Convergence.BytesKeptIffLargeEnough | sigma/sigma.go:911-949 | what was in a volume's file is still at its start after a complete reconcile if and only if the file was large enough or all zeros |
| Convergence.PrefixesDoNotMatter | sigma/command.go:113-121 | any interrupted reconciles followed by a complete one reach the view and files of a single complete one |
| Registry.LunApart | sigma/sigma.go:1396 | two volumes have the same LUN directory only if they are the same volume of the same pool |
| Registry.WantLuns | sigma/sigma.go:165-191 | the LUNs asked for are exactly those of the volumes, each linked to its volume's backstore |
| Registry.WantDevs | sigma/sigma.go:172-177 | the backstores asked for are exactly those of the volumes, each over its volume's disk file |
| Registry.WantFloors | sigma/sigma.go:178 | every volume's disk file, and no other, has to reach the larger of 1 GiB and the volume's size |
| Registry.GoalIsWf | sigma/sigma.go:92-226 | what a well-formed registry asks for does not contradict itself |
| Reconciler.DeadByIdIffUnwanted | sigma/sigma.go:105-113 | on a managed kernel matching live targets by id alone finds exactly the targets nobody wants |
| Reconciler.DeadTargetLegal | sigma/sigma.go:1196-1228 | a target that has to go is alone in its directory and has legible LUNs, so its removal is legal |
| Reconciler.DeleteUnwanted | sigma/sigma.go:101-113 | on any kernel a portal group whose name has a registered id is still there afterwards, and success means that no target that had to go shared its directory with one of those; on a managed kernel complete means that no unwanted target is left |
| Reconciler.DeleteDeadTargets | sigma/sigma.go:101-113 | complete, it leaves no target that is not wanted; stopped, only progress has been made |
| Reconciler.ReconcilePools | sigma/sigma.go:115-161 | complete, every pool's portal group is exported on exactly the configured portal without stale LUNs |
| Reconciler.ReconcileVolume | sigma/sigma.go:166-195 | complete, the volume's file, device, LUN and link are as they should be, and no other device got worse |
| Reconciler.ExportAll | sigma/sigma.go:163-196 | complete, every volume of every pool is exported and in the list that the collection compares with |
| Reconciler.TestTells | sigma/sigma.go:204-215 | on a managed kernel the comparison by id, type and name finds exactly the wanted backstores |
| Reconciler.DeadBackstoreLegal | sigma/sigma.go:203-223 | when backstores are collected no LUN links into an unwanted one, so its removal is legal |
| Reconciler.EverythingInPlace | sigma/sigma.go:92-226 | what the phases establish adds up to the desired view |
| Reconciler.AimFacts | sigma/sigma.go:115-177 | the phases' demands on the goal hold of what a well-formed registry asks for |
| Reconciler.ReconcileAll | sigma/sigma.go:92-226 | runs on any registry and kernel: other servers' targets and all disk files but the volumes' stay as they are, a portal group under a registered id is never removed, and one that has to go in the directory of one that stays makes it fail; a success means that only the pools' targets are left, each exported on the configured portal, and that every volume has its LUN and link; with every call answered it fails only for a name in the tree that does not parse, a target to go that others share or with a LUN no id names, a link into a backstore of no volume, or a volume without a name; if the registry is well formed and the kernel managed, only progress is made, no removal is refused, success means converged with every serial set, and it is a success if every call is answered |
| SigmaServer.FirstFreePoolId | sigma/sigma.go:318-337 | the least id in 1..65534 no target has; none exactly when all are taken |
| SigmaServer.NextVolumeId | sigma/sigma.go:591-610 | above every listed backstore and the high-water mark, exhausted exactly when their maximum is 65535, and 1 when nothing is listed |
| SigmaServer.Largest | sigma/sigma.go:598-600 | the element the sort puts last is the maximum |
| SigmaServer.Server.constructor | sigma/command.go:54-56 | a server starts with an empty registry |
| SigmaServer.VolumeMap.constructor | sigma/sigma.go:704 | a new map object holds the volumes it is given |
| SigmaServer.Server.LoadState | sigma/sigma.go:55-68 | the registry becomes what the file holds, empty when there is no file; a torn file is an error, and on a disk that answers the only one; every pool gets a map object of its own |
| SigmaServer.Server.Unmarshal | sigma/sigma.go:63-66 | memory holds exactly the file's registry, in new map objects that no two pools share |
| SigmaServer.Server.Reload | sigma/command.go:66-71 | a process that starts again has exactly the registry of the file |
| SigmaServer.Server.SaveState | sigma/sigma.go:70-90 | success means the file holds the registry; failure, which takes a disk that fails, leaves it as it was or torn |
| SigmaServer.Server.Start | sigma/command.go:66-83 | success means the registry of the file is in memory and in the file, and what the kernel shows if it was one to repair; with every call answered and a kernel to repair, any file that is not torn is a success, and on any kernel a failure takes one of the obstacles of a reconcile; on any kernel what stands under a registered id and what is another server's is still there |
| SigmaServer.Server.ReconcileAll | sigma/sigma.go:92-99 | the reconcile of the registry in memory, which it only reads, with all that it guarantees |
| SigmaServer.Server.ChoosePoolId | sigma/sigma.go:298-337 | the requested id, or the least one that no portal group has, with the reply for each way of having none |
| SigmaServer.Server.FindPoolConflict | sigma/sigma.go:342-353 | finds a conflict exactly when the id is registered or a name is given and some pool has none |
| SigmaServer.Server.RegisterPool | sigma/sigma.go:388-391 | adds exactly one pool without a map object; no map is shared |
| SigmaServer.Server.CommitPool | sigma/sigma.go:339-402 | under the lock, for any id however stale: the whole new world for every reply |
| SigmaServer.Server.CreatePool | sigma/sigma.go:292-403 | the call as a whole: an allocated id is the least that no portal group of this server has, and each refusal comes exactly from its cause |
| SigmaServer.Server.FindTarget | sigma/sigma.go:411-429 | the first listed target with the 16-bit id, or the zero target when there is none |
| SigmaServer.Server.ForgetPool | sigma/sigma.go:443 | removes exactly one pool, whichever map object it had |
| SigmaServer.Server.CommitDeletePool | sigma/sigma.go:431-455 | under the lock, for any target however stale: the whole new world for every reply, and what stopped an aborted call |
| SigmaServer.Server.DeletePool | sigma/sigma.go:405-455 | the call as a whole, with the status it reports; it is refused exactly when a target cannot be listed, and on a healthy server only a fault aborts it for a listed target |
| SigmaServer.Server.ChooseVolumeId | sigma/sigma.go:572-610 | the requested id or the maximum of listed ids and high-water mark plus one, with the reply for each way of having none |
| SigmaServer.NextIdIffNotExhausted | sigma/sigma.go:591-610 | there is a next id exactly when the maximum is below 65535 or nothing is listed, and only one |
| SigmaServer.Server.FindVolumeConflict | sigma/sigma.go:624-635 | finds a conflict exactly when the pool has the id or a volume without a name |
| SigmaServer.Server.RaiseMark | sigma/sigma.go:612 | the high-water mark becomes the maximum of itself and the id, and nothing else changes |
| SigmaServer.Server.MakeMap | sigma/sigma.go:702-706 | gives a pool a new, empty map object if it has none, and changes no other pool |
| SigmaServer.Server.PutIntoPool | sigma/sigma.go:699-707 | of all map objects only the pool's changes, in one entry, and the registry is the old one with that volume |
| SigmaServer.Server.DropFromPool | sigma/sigma.go:832-834 | of all map objects only the pool's changes, in one entry, and the registry is the old one without that volume |
| SigmaServer.Server.ExportNew | sigma/sigma.go:657-697 | disk file, backstore with size 0 and LUN are made in that order, none started before the one before it is done, and nothing else is touched; with every call answered it fails exactly when the size wraps to a negative number without a file, or the name is empty |
| SigmaServer.Server.AddVolume | sigma/sigma.go:645-718 | what is made and registered for every way of ending once the id is free; only an empty name crashes |
| SigmaServer.Server.CommitVolume | sigma/sigma.go:612-718 | the whole new world for every reply once there is an id |
| SigmaServer.Server.CreateVolume | sigma/sigma.go:553-719 | the call as a whole: an allocated id is the one the allocator gives for the scan, and each refusal comes exactly from its cause |
| SigmaServer.Server.FindTargetWhole | sigma/sigma.go:737-752 | a listed target with exactly the 32-bit id, so never one for an id of 65536 or more |
| SigmaServer.FirstKind | sigma/sigma.go:775-787 | the type of the first listed backstore with the id, fileio when there is none or it has no type |
| SigmaServer.Server.FindExport | sigma/sigma.go:729-787 | target, type and status found before the lock; it fails exactly when something cannot be listed; active only if LUN and a typed backstore are listed, degraded only if not, unless an untyped directory comes first |
| SigmaServer.Server.Unexport | sigma/sigma.go:803-830 | LUN, backstore and file go in that order, none before the one before it is gone; a stop keeps the file; no removal is refused if no other LUN links in, and it cannot succeed if one does |
| SigmaServer.Server.WhatToDelete | sigma/sigma.go:792-801 | name, disk file and size of the registered volume, none for another one |
| SigmaServer.Server.ForgetVolume | sigma/sigma.go:832-845 | removes exactly the volume from the registry and saves it |
| SigmaServer.Server.CommitDeleteVolume | sigma/sigma.go:789-845 | under the lock, for any scan however stale: the whole new world for every reply, and what stopped an aborted call |
| SigmaServer.Server.DeleteVolume | sigma/sigma.go:721-846 | the call as a whole, with the reply it gives; it is refused exactly when the target is not listed or something cannot be listed, and on a healthy server only a fault aborts it for a registered volume |
| SigmaServer.Server.ListPools | sigma/sigma.go:228-246 | lists exactly the registered pools |
| SigmaServer.Server.GetVolume | sigma/sigma.go:491-551 | by id the volume; by name any volume of a pool whose own name was given, and nothing otherwise; always reporting pool 0; with the exact condition of each error |
| SigmaServer.TargetOfPool | sigma/sigma.go:737-744 | on a healthy server the listed target with a pool's id is the pool's |
| SigmaServer.OwnLinksOnly | sigma/sigma.go:775-819 | whatever type of backstore is found for a registered volume, only its own LUN links there |
| SigmaServer.HealthyDeletePool | sigma/sigma.go:1196-1228 | on a healthy server only a fault aborts the deletion of a listed target |
| SigmaServer.HealthyDeleteVolume | sigma/sigma.go:803-819 | on a healthy server only a fault aborts the deletion of a registered volume |
| Outcomes.NewEntries | sigma/sigma.go:362-365 | what is registered has the given name, or else one that parses back to the id, and the requested size |
| Recovery.HealthyIsManaged | sigma/sigma.go:92-226 | a healthy server's kernel is one that a reconcile can repair |
| Recovery.ManagedIffClear | sigma/sigma.go:105-113 | a tidy kernel can be brought to a registry if and only if no portal group and no device stands under one of its ids with another name |
| Recovery.CreatePoolStaysHealthy | sigma/sigma.go:339-402 | stopped anywhere or not, creating a pool leaves a healthy server: registering it takes a name no pool has and nothing in the kernel under id or target name but the pool's own portal group, making only the portal group takes that the target directory holds no other, and the rest needs nothing |
| Recovery.DeletePoolStaysHealthy | sigma/sigma.go:431-455 | likewise for deleting a pool, whatever target the scan found |
| Recovery.CreateVolumeStaysHealthy | sigma/sigma.go:612-718 | stopped anywhere or not, creating a volume leaves a healthy server; one that registers nothing and adds nothing to the tree needs nothing, another one an id and disk file no volume has and nothing in the kernel in its places but its own |
| Recovery.FreeIsOwn | sigma/sigma.go:657-697 | in a tidy kernel a place with nothing in it has nothing foreign in it |
| Recovery.DeleteVolumeStaysHealthy | sigma/sigma.go:789-845 | likewise for deleting a volume, whatever the scan found |
| Recovery.ReconcileStaysHealthy | sigma/sigma.go:101-223 | every prefix of a reconcile leaves a healthy server |
| Recovery.TowardStaysClear | sigma/sigma.go:101-223 | a reconcile toward one registry leaves the kernel clear for another that agrees with it |
| Recovery.SamePoolsSameGoal | sigma/sigma.go:612 | the high-water mark does not matter for what a registry asks of the kernel |
| Recovery.ListedTargetLegal | sigma/sigma.go:1196-1228 | on a healthy server every listed target is alone in its directory with legible LUNs, so nothing in its removal is refused |
| Recovery.OnlyItsLunLinks | sigma/sigma.go:803-819 | on a healthy server only a registered volume's own LUN links to its backstore, from the moment it is created |
| Recovery.ConvergedLeavesRoomForPool | sigma/sigma.go:318-360 | after a complete reconcile an unregistered id and name are free in the kernel too |
| Recovery.ConvergedLeavesRoomForVolume | sigma/sigma.go:582-612 | after a complete reconcile the kernel has room for any unregistered volume id |
| Guarantees.AllOrNothing | sigma/sigma.go:332-846 | for all four mutators a reply other than OK and Internal leaves pools and file unchanged, and OK means the file holds the registry |
| Guarantees.ReconcileRestores | sigma/sigma.go:165-196 | if the wanted files are intact, a complete reconcile restores the view exactly |
| Guarantees.AbortedPoolCallIsUndone | sigma/sigma.go:377-391 | an aborted pool call is undone by the next complete reconcile, view and files |
| Guarantees.AbortedCreateVolumeIsUndone | sigma/sigma.go:664-707 | after the next complete reconcile toward the registry as the call left it, an aborted volume create has vanished from the view, and no disk file but the new one differs |
| Guarantees.AbortedDeleteLosesNothing | sigma/sigma.go:792-834 | an aborted delete keeps entry and bytes, and the next complete reconcile exports them again |
| Guarantees.NextIdIsFreeInKernel | sigma/sigma.go:582-603 | no listed backstore has the allocated id |
| Guarantees.NextIdIsFreshIff | sigma/sigma.go:582-612 | the allocated id is new to every pool if and only if something was listed or id 1 is not registered |
| Guarantees.AllocatedIdRefusedIff | sigma/sigma.go:591-643 | with named volumes, a create with an allocated id is refused as existing if and only if nothing was listed and the pool has a volume 1 |
| Guarantees.NextIdIsFresh | sigma/sigma.go:582-612 | on a converged kernel the allocated id is always new to every pool |
| Guarantees.DeleteFindsCreated | sigma/sigma.go:737-787 | deleting a volume just created finds the target and the backstore type the create used, and nothing else links there |
| Guarantees.UnmakeWhatWasMade | sigma/sigma.go:657-697 | what the kernel side of a delete removes is what the kernel side of the create made |
| Guarantees.CreateThenDelete | sigma/sigma.go:553-846 | after a create with an allocated id where the kernel has nothing, only a fault aborts the delete, and its success restores pools, LUNs, links, backstores and files exactly; only the high-water mark moved |
| Guarantees.AllocatedIsFree | sigma/sigma.go:582-661 | on a converged kernel an allocated id and a disk file that is not there are all a create needs: id, file and kernel places are free |
| Guarantees.AbortedAllocatedCreateIsUndone | sigma/sigma.go:582-707 | on a converged kernel an aborted create with an allocated id and an unused file leaves, after the next complete reconcile, at most that file |
| Guarantees.AllocatedCreateThenDelete | sigma/sigma.go:553-846 | on a converged kernel a create with an allocated id and an unused file is taken back by a delete, which only a fault aborts: registry but for the high-water mark, view and files are the old ones, and the kernel is converged |
| Guarantees.GetTellsCreated | sigma/sigma.go:491-551 | asked for by its id, a created volume is reported with what the create reported, but as one of pool 0 |
| Guarantees.UpsertShowsTarget | sigma/sigma.go:1148-1261 | after a complete upsert of a target the view and what `ListTargets` returns are the old ones plus exactly that target |
| Guarantees.UpsertShowsLun | sigma/sigma.go:1320-1415 | likewise for a LUN, with what `ListLUNs` returns, and its link |
| Guarantees.UpsertShowsBackstore | sigma/sigma.go:977-1146 | likewise for a backstore, with what `ListBackstores` returns |
| Runs.StepRefines | sigma/sigma.go:339-391 | one commit is one operation of the sequential registry, and an enabled one: a create overwrites nothing |
| Runs.RunStaysSound | sigma/sigma.go:572-612 | in every world of every run pools and volumes are stored under their own ids and no volume id is above the high-water mark |
| Runs.RunRefines | sigma/sigma.go:309-834 | over a process the registry equals the sequential registry run over the commits in order |
| Runs.HighWaterRises | sigma/sigma.go:612 | within a process the high-water mark never falls |
| Runs.AllocatedIdsRise | sigma/sigma.go:595-612 | an id allocated after a non-empty scan is above every id used before and new to every pool |
| Runs.RunSparesOthers | sigma/sigma.go:101-846 | until a reboot no run changes anything in a target of another server, whatever registry and kernel look like |
| Runs.FileIsFromTheRun | sigma/sigma.go:70-90 | unless torn, the file holds a registry the server had after its last acknowledged call |
| Runs.RestartKeepsAcknowledged | sigma/command.go:66-83 | a restart loses no acknowledged change |
| Runs.TornUntilAcknowledged | sigma/sigma.go:62-66 | a torn file stays torn, and stops every restart, until a call is acknowledged |
| Runs.TickStaysDurable | sigma/command.go:113-121 | a tick, complete or not, leaves a server that could also start from its file |
| Runs.RebootStaysDurable | sigma/command.go:66-83 | a reboot, which empties configfs and keeps the disk, leaves a server that can start |
| Runs.RebootRestores | sigma/command.go:66-83 | a converged server with a saved registry comes back from a reboot with the same registry, view and bytes |
| Runs.StepStaysDurable | sigma/command.go:66-121 | any call, refused or not, any reconcile, restart and reboot leaves a server that could also start from its file, as long as creates that register something or add to the tree use what nobody else has |
| Runs.RunStaysDurable | sigma/command.go:66-121 | over every run whose effective creates use what nobody else has, each complete reconcile, restart and reboot ends in exactly the registry of the moment |
| Runs.RunDeletesLegally | sigma/sigma.go:431-819 | in every such run a registered volume's backstore is linked by its own LUN only, and nothing but a fault aborts the deletion of a listed target or a registered volume |
| Runs.FirstStartIsDurable | sigma/command.go:66-83 | a machine the server has never run on is a start for such runs |
| Runs.TicksProgress | sigma/command.go:113-121 | any number of ticks, stopped anywhere, only make progress |
| Runs.RetriesReachTheSameView | sigma/command.go:113-121 | the first complete tick reaches the view and files a single complete reconcile would have |
| Runs.IdleRunsChangeNothing | sigma/command.go:113-121 | ticks on a converged kernel change neither view nor bytes |
| Limits.NamesAreNotChecked | sigma/sigma.go:342-353 | the pool check finds the id, or a pool without a name, and nothing else |
| Limits.NamesStayApartIffNew | sigma/sigma.go:348-391 | pool names stay apart if and only if the request brings a new one |
| Limits.DuplicateNameGoesThrough | sigma/sigma.go:348-365 | a concrete registry and request whose duplicate name goes through |
| Limits.IdsStayApartIffNew | sigma/sigma.go:625-634 | volume ids stay apart if and only if no pool at all has the id |
| Limits.VolumeNamesAreNotChecked | sigma/sigma.go:624-634 | the volume check finds the id in the pool, or a volume without a name, and nothing else |
| Limits.DuplicateVolumeNameGoesThrough | sigma/sigma.go:630-648 | a concrete request that repeats a volume name in its pool goes through and shares the disk file |
| Limits.IdOfAnotherPoolGoesThrough | sigma/sigma.go:625-634 | a concrete request with an explicit id of another pool's volume goes through |
| Limits.FilesStayApartIffNew | sigma/sigma.go:661 | disk files stay apart if and only if no volume has the new one's file |
| Limits.SameIdSameDirectory | sigma/sigma.go:1070 | two volumes share a backstore directory if and only if they share their id, whatever their pools |
| Limits.ImagePathsMeetIff | sigma/sigma.go:661 | two volumes share a disk file if and only if pool and volume name joined by a dash are equal |
| Limits.SharedDiskFile | sigma/sigma.go:661 | two concrete volumes of different pools that share a disk file |
| Limits.DashFreePoolsKeepFilesApart | sigma/sigma.go:661 | pool names without a dash keep the disk files apart |
| Limits.DeleteKeepsOtherFilesIffApart | sigma/sigma.go:823-830 | deleting a volume keeps another's file if and only if they do not share it |
| Limits.UnlistedPoolDroppedIffNoTargets | sigma/sigma.go:421-443 | deleting a pool without a listed target can succeed if and only if the kernel has no target at all |
| Limits.PoolStaysHealthyIffFresh | sigma/sigma.go:339-402 | however it ends, creating a pool leaves a healthy server if and only if what it registers has a new name and finds nothing but its own portal group under id and target name, and what it only makes finds no other group in the target directory |
| Limits.VolumeStaysHealthyIffFresh | sigma/sigma.go:612-718 | a volume that is made and registered leaves a healthy server if and only if its id and disk file are new and the kernel had nothing in its places but its own |
| Limits.CreateStaysDurableIffFresh | sigma/sigma.go:339-718 | what the theorems about runs ask of a create is exactly what it takes for the server to be able to start from memory and from its file: for pools however the call ends, for volumes if it is answered OK or Internal |
| Limits.RetryAfterAbort | sigma/sigma.go:318-402 | a concrete run: an aborted pool create and the same request again get different ids for one target directory, the kernel cannot be repaired, and the next reconcile fails whatever it meets |
| Limits.RenamedRetry | sigma/sigma.go:553-707 | a concrete run: an aborted volume create and another with the same explicit id under another name leave two devices in one backstore directory, which no reconcile can repair |
| Limits.SerialsMeetIffNamesDo | sigma/sigma.go:1104-1115 | on a machine that had no devices two volumes get one unit serial if and only if they have one name, whatever their pools |
| Limits.NewVolumeIsOff | sigma/sigma.go:657-697 | a volume just created is never converged, its device size being 0 |
| Limits.FirstBytesKeptIffLarge | sigma/sigma.go:178 | what is written to a new volume is still there after the first reconcile if and only if the volume has at least 1 GiB or only zeros were written |
| Limits.LaggingFileIsManagedIff | sigma/command.go:66-83 | after a complete reconcile a restart finds a kernel it can bring to the file's registry if and only if no id of the file stands for another name in memory |
| Limits.TwoLaggingSaves | sigma/sigma.go:393-443 | a concrete run of two failed saves after which a restart finds a kernel it cannot repair |
| Limits.StaleNameIsKept | sigma/sigma.go:101-113 | however often the server reconciles or is started again from its file, a target under a live id but another name stays, and the view is never the one the registry asks for |
| Limits.StoppedDeleteBlocksAllocation | sigma/sigma.go:582-643 | a delete of the only volume, stopped before its file is gone, after which the id that is allocated is refused |
| Limits.ReloadStaysBoundIff | k8sprovisioner/k8sprovisioner.go:187-200 | after a restart from the file a class that remembers a pool is still bound if and only if the file has that pool under the class's name |
| Limits.LostPool | k8sprovisioner/k8sprovisioner.go:187-244 | a concrete run: the class remembers a pool whose save failed, the machine starts again, another pool takes the id, and the next volume made for the class is in that other pool |
| K8sProvisioner.ParseNumber | k8sprovisioner/k8sprovisioner.go:48-131 | a printed number parses back to itself exactly when it fits 32 bits |
| K8sProvisioner.SigmaClient.CreatePool | k8sprovisioner/k8sprovisioner.go:220-226 | at most one new empty pool under a new id, also when the reply is lost; without losses a refusal has its cause in the server |
| K8sProvisioner.SigmaClient.CreateVolume | k8sprovisioner/k8sprovisioner.go:240-244 | at most one new volume, also when the reply is lost; a reply names the LUN that the kernel exports; refused exactly when the id is in the pool or a volume has no name; any other failure has its cause in the server |
| K8sProvisioner.SigmaClient.GetVolume | k8sprovisioner/k8sprovisioner.go:248-251 | an answered lookup by name succeeds exactly when the pool itself has the name and a volume |
| K8sProvisioner.RefusedIffBlocked | k8sprovisioner/k8sprovisioner.go:245-251 | with named volumes a create is refused if and only if nothing was listed and the pool has a volume 1 |
| K8sProvisioner.MadeExports | k8sprovisioner/k8sprovisioner.go:283-287 | a finished create has the LUN in the pool's target, linked to an enabled device over the volume's disk file |
| K8sProvisioner.SigmaClient.DeleteVolume | k8sprovisioner/k8sprovisioner.go:375-379 | removes at most that entry, and for a pool id of 65536 or more never succeeds and removes nothing; without losses a refusal has its cause in the server |
| K8sProvisioner.Provisioner.FindPool | k8sprovisioner/k8sprovisioner.go:211-217 | the id of a listed pool with the name, 0 only when there is none |
| K8sProvisioner.Provisioner.Annotated | k8sprovisioner/k8sprovisioner.go:187-200 | the id in an annotation, 0 when it is empty, an error when it does not parse |
| K8sProvisioner.Provisioner.ResolvePool | k8sprovisioner/k8sprovisioner.go:184-227 | the claim's annotation, the class's, the name, a new pool, in that order; a pool is made only when none has the name, whatever happens between listing and making; with the exact cause of each failure |
| K8sProvisioner.Provisioner.Annotate | k8sprovisioner/k8sprovisioner.go:229-238 | the class remembers the pool unless it had one, in memory even when the update fails |
| K8sProvisioner.Provisioner.MakeVolume | k8sprovisioner/k8sprovisioner.go:240-292 | a persistent volume is for the volume just made and names its exported LUN, or for one of a pool that has the volume's name, and it mounts by the class's portal and file system; with named volumes the missing reply is dereferenced if and only if nothing was listed, the pool had a volume 1, and the lookup, however late, is lost or finds no volume in a pool of that name; any other failure has its cause in the server or the network |
| K8sProvisioner.Provisioner.Provision | k8sprovisioner/k8sprovisioner.go:160-293 | what one attempt does to registry, kernel and class with anything else happening between its calls, what it returns, the cause of each failure, and exactly when it crashes; no volume is asked for until the class is stored, unless it had a pool; a claim with its own pool rewrites the class's |
| K8sProvisioner.Provisioner.Meanwhile | k8sprovisioner/k8sprovisioner.go:184-244 | drift, reconciles, other clients' volumes and pools, and restarts from a file that has the class's pool keep the pools of the class's name |
| K8sProvisioner.Provisioner.ProvisionAll | k8sprovisioner/k8sprovisioner.go:160-244 | over any sequence of attempts with anything else before them and between their calls, at most one pool has the class's name, and every volume was added to, or found in, that one pool; every attempt that made none has its cause in the claim, the class, the server or the network |
| K8sProvisioner.Provisioner.RecordedPool | k8sprovisioner/k8sprovisioner.go:316-349 | the pool of the volume's annotation, the stored class's, or the name, in that order, with the cause of each failure; 0 only when no pool has the name |
| K8sProvisioner.Provisioner.RecordedVolume | k8sprovisioner/k8sprovisioner.go:355-373 | the volume of the annotation, or the id of some volume of the pool if the pool itself has the volume's name; with the cause of each failure |
| K8sProvisioner.Provisioner.Delete | k8sprovisioner/k8sprovisioner.go:295-380 | deletes the volume that the annotations name, with anything else between its calls; it reports success without a request only when no pool can be found, and each failure has its cause |
| K8sProvisioner.DeleteUndoesProvision | k8sprovisioner/k8sprovisioner.go:262-379 | deleting what was provisioned removes exactly that entry at any later time, and immediately restores the registry but for the high-water mark |

## Left out

- Lio.SetupLIO: does not model the directories `target` and `target/core`, which the kernel module makes; they are always there.
- Lio.ListBackstores: reports some data directory of a backstore; the source keeps the last in directory order, and the tree has no order.
- Lio.UpsertTarget: is for a target with an IQN; every caller builds it from the base name and a colon.
- Lio.UpsertLUN: is for a target with an IQN, likewise.
- Lio.UpsertPortal: is for a target with an IQN, likewise.
- Lio.UpsertBackstore: the types other than fileio only return errors, which is all that is modelled of them.
- Guarantees.AbortedCreateVolumeIsUndone: does not restore the new volume's disk file, which the source leaves behind.
- Runs.RunStaysDurable: a create that registers something or adds to the tree has to use what nobody else has, because the server does not check it. The condition is exact (`Limits.CreateStaysDurableIffFresh`) and `Limits` has runs that break it, but for a volume create that adds to the tree and then aborts or crashes it is only sufficient: one that got no further than its backstore could share its disk file with another volume.
- K8sProvisioner.Provisioner.ProvisionAll: no other client makes or deletes a pool of the class's name, and a restart is from a file that has the class's pool if memory has it; `Limits.LostPool` shows what happens otherwise.
- K8sProvisioner.SigmaClient.CreateVolume: a server that crashes is to the client a reply that is lost; what the crashed process does next is in `Runs`.
- Go's nil and empty maps differ in memory and are the same in the registry value that contracts speak of; slices are values.
- Names are single path components: path cleaning and names with a slash are not modelled.
- Configfs attribute files are fields of records; a read returns what was last written. Default attributes of new groups and devices are arbitrary. Files that configfs makes by itself are not entries of the tree.
- A scan outside the lock reads the tree at one moment; its result may then be arbitrarily stale when it is used.
- The response that goes with an error is not sent by gRPC and is not modelled.
- A transport failure is one of two: the server never saw the call, or its reply was lost.
- A failed start is folded into the next successful one unless it tears the state file, after which the server does not start.
- `GetPool` and `ListVolumes` only read and are left out; JSON encoding is left out, the state file holds a registry value.
- Message texts, logging, gRPC plumbing, leader election, quantity parsing and the Kubernetes API beyond annotations of one storage class.
- `ParseNumber` for types other than uint32.
