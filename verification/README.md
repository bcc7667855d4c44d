# A verified model of the Zenlayer cloud-disk CSI driver

The driver serves the Controller and Node services of the Container Storage Interface for
cloud disks. The difficulty of the controller is that every RPC takes an in-memory lock,
looks at the cloud, issues one command, polls until the command shows, and looks again,
while the cloud works asynchronously, answers with errors after having taken effect, and
outlives the lock. The difficulty of the node service is that it may format a disk, and
must never do so to a disk that holds data. This project models both as state machines
over everything that can happen and proves what they guarantee.

## How the model is built

- **Values.** `Capacity` (64-bit size arithmetic, with wrap-around), `VolumeId`,
  `Topology`, `StorageClass`, `CloudTypes`, `RpcCodes`. Whatever the driver does in a loop
  or in place is a method with a loop, proved against an order-free specification.
- **Waiting and listing.** `Polling` is the ticker/timer loop, `Paging` the paged listings
  and the searches by name.
- **The controller.** `ControllerProgram` gives each RPC as an interaction program: the
  next lock operation or cloud call, and how the RPC continues for every possible answer.
  `ControllerServer` is the service as the driver runs it: a class with a lock set and
  imperative methods, whose contracts say that the exchanges made are a conversation of
  that program ending in the outcome returned, and that the lock set is back as it was.
  `ControllerSystem` interleaves any number of RPCs, one exchange at a time, over one lock
  set and a nondeterministic cloud; `Conversations` shows that what each RPC of a run
  exchanges is a conversation of its program. What each RPC asks of the cloud, and when it
  gives which answer, told from the cloud's answers alone, is in `Stories`,
  `VolumeMeanings`, `SnapshotMeanings`, `CreationMeaning`, `Deletion` and `Expansion`. The
  theorems over runs are in `Observations`, `Attachments`, `Unpublishing`, `Expansion`,
  `Deletion`, `Departures`, `DiskUniqueness`, `Snapshots` and `Provisioning`. `Races`, `ResizeRaces`, `SnapshotNames` and `LookupGaps` build runs,
  with the tools in `Reaching`, that show which conditions are needed; these and `InFlight`
  prove which are exact. `SnapshotRetry` is the retry of a snapshot request.
- **The node.** The same in the same shape: `NodeProgram`, `NodeServer`,
  `NodeConversations`, `NodeMeanings`, `NodeSystem`, with the theorems over runs in
  `Formatting`, `MountTables` and `Mounting`.
  `Devices` is the search for a block device by serial.

Everything outside the driver is a parameter: the cloud's answers and effects, timers,
what other users of the account or the node do, and the order in which maps are visited.
The answers a service object will get are fixed in advance by a function about which
nothing is known, so a contract holds for all of them.

## What the model says that the documentation does not

- Rounding up a request above 2^63 - 2^30 bytes wraps to a negative size, which passes
  the maximum check; `RequiredSizeOverflows`, `RequiredSizeMeetsContract` and
  `ExpandFallsShort` state exactly when.
- `UpdateParmsZone` has the intended effect exactly when the map names a group and its
  old zone value was not empty (or the values are the defaults): `RezonedParses`.
- The paged search by name finds an entry that stays in the listing, however the listing
  evolves, if and only if the listing counts at most one page of 20:
  `CollectedExactlyUpToOnePage`. The consequence for `CreateVolume` is the same bound: as
  long as only the driver creates disks and none is restored, up to 20 disks of a name,
  recycled ones included, mean at most one usable disk of a key whatever listings do while
  they are read; with 21, a disk that goes away while the search reads can hide the usable
  one, and a second one is created (`UniqueUpToOnePage`, `SecondDiskIsCreated`). Beyond one
  page uniqueness needs the listing to keep its places while it is read
  (`AtMostOneDisk`).
- Locks are given back on timeout while a command may still be in flight. A command that
  lands only then can take a volume off another node (`StaleDetachHitsAnotherNode`), put it
  on a node after a successful unpublish from it (`StaleAttachAfterUnpublish`), or make it
  smaller again (`StaleResizeShrinks`). The guarantees about attachments and sizes hold if
  and only if whoever issued a command still holds the volume when it lands
  (`LandingInTimeIsExact`, `PublishOkIsAttachedExactly`). A command that times out, or is
  answered with an error after taking effect, is covered when it lands before the lock is
  given back, is dropped, or never lands. What was observed and commanded needs no
  condition (`DetachIsJustified`, `AttachIsJustified`, `ResizeIsJustified`).
- The comment at `pkg/disk/rpcserver/controllerserver.go:686` wants a name used for another
  source volume refused. The lookup asks only for the source's own zone and group, and
  only the source volume is locked. So names used for two volumes are kept apart if and
  only if the volumes are in the same zone and group and requests for the name do not
  overlap (`NamesAreKeptApart`): otherwise the name is used twice, at the same time
  (`SameNameTwice`) or, in different zones or groups, one strictly after the other
  (`SameNameElsewhere`). Per source volume names are always unique (`AtMostOneSnapshot`).
- Retrying `CreateSnapshot` gives the same snapshot if and only if requests for one name,
  zone and group do not overlap (`RetryIsIdempotentExactly`); after an overlap the retry
  may be refused (`RepeatIsRefused`).
- An OK of `ControllerUnpublishVolume` means that the volume is off the node if and only if
  operations land in time and the cloud shows a disk Available, when an unpublish polls,
  only once it is detached (`UnpublishOkIsDetachedExactly`). The wait looks at the status
  alone, so a disk shown Available too early is reported as detached
  (`HiddenDetachReported`).
- An OK of `CreateVolume` for an existing disk says nothing about its status beyond not
  being recycled (`ExistingDiskAnyStatus`), nor about its content: a disk found by name is
  answered with the content source of the request whatever it was made from
  (`ExistingDiskAnyOrigin`). A disk newly made has the content asked for
  (`NewVolumeHasOrigin`).
- An OK of an expansion means that the disk has the size reported if and only if three
  conditions are kept (`ExpandOkHasSizeExactly`): operations land in time; polls show the
  resize, as when the cloud takes the disk out of the stable states while a resize is
  queued; and no resize that is waited for is dropped. The first poll is immediate, so
  without the second the OK may come before the size (`ImmediatePollReportsTooMuch`), and
  without the third the size may never come (`DroppedResizeReportsTooMuch`).

## Model

| member | source | states |
|---|---|---|
| Capacity.GibToByteIsExact | pkg/common/calculator.go:28-30 | the multiplication by 2^30 is exact for precisely the GiB counts below 2^33 in magnitude |
| Capacity.CeilAdjunction | pkg/common/calculator.go:28-43 | rounding up is adjoint to converting back, within the overflow bound, so comparing in GiB or in bytes agrees |
| Capacity.RoundUpKeepsBytes | pkg/common/calculator.go:28-43 | rounding up gives at least the bytes asked for exactly up to 2^63 - 2^30 |
| Capacity.RequiredSizeIsLeast | pkg/disk/driver/storageclass.go:231-260 | the result is the least whole-GiB size that fits range and class, and there is a failure exactly when the range is ill-formed or no size fits |
| Capacity.RequiredSizeOverflows | pkg/disk/driver/storageclass.go:246-254 | beyond the bound the product wraps and a size that fits nothing is accepted |
| Capacity.RequiredSizeMeetsContract | pkg/disk/driver/storageclass.go:231-260 | the answer is right if and only if the range is ill-formed or within the bound |
| Capacity.RequiredSizeIsValidCapacity | pkg/common/calculator.go:46-57 | a size handed out always passes the check a retried CreateVolume makes on the existing disk |
| Capacity.RequestSizeBytesAcceptsWellFormed | pkg/common/calculator.go:60-79 | the node-side check accepts exactly the well-formed ranges and returns what was required |
| Capacity.FormatClamps | pkg/disk/driver/storageclass.go:204-212 | clamping lands inside the limits, is monotone and idempotent, and moves nothing already inside |
| VolumeId.ParseAcceptsExactly | pkg/common/common.go:94-104 | exactly the strings v-s with a dash-free v of 19 and an s of 20 bytes are accepted, and generating again gives the string back |
| VolumeId.ParseAfterGen | pkg/common/common.go:78-104 | a generated id parses to its two halves if and only if they are well shaped |
| VolumeId.GenIsInjective | pkg/common/common.go:78-80 | different well-shaped pairs get different ids, even when serials contain dashes |
| Locks.ResourceLocks.TryAcquire | pkg/common/lock.go:40-48 | a key is granted exactly when nobody has it, and is taken afterwards |
| Locks.ResourceLocks.Release | pkg/common/lock.go:50-54 | gives back that key and no other |
| CloudTypes.TypeNameRoundTrip | pkg/disk/driver/types.go:112-153 | the disk type asked for is the type read back, for exactly the valid types |
| Polling.WaitForSpecificOrError | pkg/cloud/utils.go:43-71 | the first decisive poll decides, a timeout comes only after at least one poll and only if all polls were indecisive |
| Polling.PollBound | pkg/cloud/utils.go:52-70 | polls shorter than the interval are at most 1 + timeout/interval in number, and the timer is served within one interval |
| Polling.StatusWaitPolls | pkg/cloud/utils.go:89-97 | with the driver's constants a wait makes at most 61 polls |
| Paging.ListAll | pkg/cloud/cloud_manager.go:763-835 | the loop collects what successive pages show, or fails exactly when a call fails |
| Paging.StableListingIsWhole | pkg/cloud/cloud_manager.go:783-835 | a listing that does not change is collected whole and in order, whatever its size |
| Paging.ShrinkingListingSkips | pkg/cloud/cloud_manager.go:783-813 | in every listing of more than a page, the first entry of the second page is skipped when the first entry goes away between two calls |
| Paging.CollectedExactlyUpToOnePage | pkg/cloud/cloud_manager.go:783-813 | an entry that stays is collected, however the listing evolves, if and only if the count fits one page |
| Paging.FindVolumeByName | pkg/cloud/cloud_manager.go:744-884 | the search answers as the simple specification does on what was collected |
| Paging.FirstMatchMeaning | pkg/cloud/cloud_manager.go:858-883 | that specification: the first usable disk of the zone and type, an error carrying it if its size differs, nothing if there is none |
| Paging.FindSnapshotByName | pkg/cloud/cloud_manager.go:1423-1536 | only the first entry of the listing counts, whatever its source |
| StorageClass.NewZecStorageClassFromMap | pkg/disk/driver/storageclass.go:71-139 | the outcome is that of reading the entries in the order in which the map happened to be visited |
| StorageClass.OrderDoesNotMatter | pkg/disk/driver/storageclass.go:84-112 | if no two keys name the same field, every order gives the order-free outcome |
| StorageClass.RequestParams.UpdateParmsZone | pkg/disk/driver/storageclass.go:63-69 | the values of zone keys are replaced and nothing else |
| StorageClass.RezonedParses | pkg/disk/driver/storageclass.go:63-139 | exactly when a rewritten map parses to the new zone, and exactly when every other field stays |
| StorageClass.RezonedKeepsKeys | pkg/disk/driver/storageclass.go:63-69 | no key is added or removed, and rewriting twice is rewriting once |
| Topology.PickTopology | pkg/disk/rpcserver/controllerserver.go:958-1006 | the pick, and whether it fails, is independent of map order |
| Topology.GetVolumeTopology | pkg/disk/rpcserver/controllerserver.go:1033-1053 | one topology per VM type the disk type attaches to, in the disk's zone |
| Topology.TopologyRoundTrip | pkg/disk/rpcserver/nodeserver.go:431-436 | a disk in a node's zone offers exactly what the node advertises; as a request's first choice that picks the zone, and the disk is accepted if and only if it is among what the request requires |
| Topology.PickedSegmentsAreOffered | pkg/disk/rpcserver/controllerserver.go:1008-1053 | picked segments are offered by the created disk if and only if they carry both keys |
| Topology.PickedIsAcceptedAgain | pkg/disk/rpcserver/controllerserver.go:1008-1031 | a disk created where the request picked is accepted when the request is repeated |
| ControllerProgram.ResumeIsWellFormed | pkg/disk/rpcserver/controllerserver.go:118-873 | every answer whatsoever leaves an RPC at a point its request leads to, with the facts established on the way |
| ControllerProgram.StackDiscipline | pkg/disk/rpcserver/controllerserver.go:146-278 | keys change hands only in lock operations, last taken first given back, and a finished RPC holds none |
| ControllerServer.Server.CreateVolume | pkg/disk/rpcserver/controllerserver.go:118-344 | the code's exchanges are a conversation of the program with this outcome, its plan is the one the parameters call for in the order they were read, the outcome is the one `CreateVolumeMeaning` tells from the cloud's answers, and every key is given back |
| ControllerServer.Server.MakePlan | pkg/disk/rpcserver/controllerserver.go:154-187 | the plan made from parameters, topology and range, and exactly when the zone is rewritten in place |
| ControllerServer.Server.RestoreFromSnapshot | pkg/disk/rpcserver/controllerserver.go:260-332 | the nested snapshot lock is given back on every path |
| ControllerServer.Server.ReadDiskPages | pkg/cloud/cloud_manager.go:790-813 | the paging loop makes one exchange per page, from the first page on, and decides on all it has appended |
| ControllerServer.Server.FindSnapshotByName | pkg/cloud/cloud_manager.go:1423-1536 | the same search for snapshots, page by page, deciding on the first entry |
| ControllerServer.Server.DeleteVolume | pkg/disk/rpcserver/controllerserver.go:353-393 | the same for deletion; at most two releases and, with timers kept, 126 calls, and success if and only if the disk was seen gone or the id is not one of the driver's |
| ControllerServer.Server.ReleaseUntilGone | pkg/cloud/cloud_manager.go:365-418 | the release loop goes through exactly the program's rounds |
| ControllerServer.Server.WaitDiskReleased | pkg/cloud/cloud_manager.go:1679-1732 | tells a disk that is gone from a recycled one, exactly as the deciding poll shows |
| ControllerServer.Server.WaitDiskStatus | pkg/cloud/cloud_manager.go:1545-1664 | the wait ends with the first decisive answer or with the timer, after at most one poll more than ticks served, and at most 61 when timers are kept |
| ControllerServer.Server.ControllerPublishVolume | pkg/disk/rpcserver/controllerserver.go:402-510 | conversation and locks for publishing, and the outcome as `PublishMeaning` tells it from the answers |
| ControllerServer.Server.ControllerUnpublishVolume | pkg/disk/rpcserver/controllerserver.go:519-593 | conversation and locks for unpublishing, and the outcome as `UnpublishMeaning` tells it from the answers |
| ControllerServer.Server.ControllerExpandVolume | pkg/disk/rpcserver/controllerserver.go:602-682 | conversation and locks for expansion, the outcome as `ExpansionMeaning` tells it, and that an OK is honest about the size seen first |
| ControllerServer.Server.CreateSnapshot | pkg/disk/rpcserver/controllerserver.go:692-821 | conversation and locks for taking a snapshot, and the outcome as `CreateSnapshotMeaning` tells it from the answers |
| ControllerServer.Server.DeleteSnapshot | pkg/disk/rpcserver/controllerserver.go:831-873 | conversation and locks for deleting a snapshot, and the outcome as `DeleteSnapshotMeaning` tells it from the answers |
| ControllerSystem.LocksAreOwned | pkg/common/lock.go:40-54 | in every run the lock set is exactly the disjoint union of the keys held by RPCs in flight |
| ControllerSystem.NothingLeftLocked | pkg/disk/rpcserver/controllerserver.go:146-152 | when all RPCs have finished, no key is left behind |
| ControllerSystem.NameEqualToSnapshotIsAborted | pkg/disk/rpcserver/controllerserver.go:272-278 | a volume named like the snapshot it restores is refused, and keeps just its first key to give back |
| ControllerSystem.RestoreExcludesDelete | pkg/disk/rpcserver/controllerserver.go:272-278 | the driver deletes no snapshot while a restore from it is in progress |
| Conversations.RunsAreConversations | pkg/disk/rpcserver/controllerserver.go:118-873 | however RPCs interleave, each one's exchanges are a conversation of its own program |
| Stories.CallsAreOwn | pkg/disk/rpcserver/controllerserver.go:118-873 | every cloud call is its request's own, with the arguments asked for: id, node, name, zone, group, type, size and the snapshot to restore from |
| VolumeMeanings.PublishMeaning | pkg/disk/rpcserver/controllerserver.go:433-510 | OK if and only if the node was shown RUNNING and the volume on it, at once (as when publishing again) or after an accepted attach; FailedPrecondition, NotFound and Aborted are told exactly as well |
| VolumeMeanings.UnpublishMeaning | pkg/cloud/cloud_manager.go:507-545 | OK if and only if the volume was first shown missing, unattached or elsewhere, or a detach was accepted and it was afterwards shown Available; at most one detach, after a sight of it on the node |
| VolumeMeanings.ExpansionMeaning | pkg/disk/rpcserver/controllerserver.go:625-681 | OK if and only if the volume was shown large enough or an accepted resize was followed by a sight of it stable; the larger size is reported, with node expansion exactly when not in block mode; each error code exactly |
| VolumeMeanings.AnsweredAtOnce | pkg/disk/rpcserver/controllerserver.go:125-144 | exactly the malformed requests and those for unknown volumes are answered before a lock is tried, the former with InvalidArgument |
| VolumeMeanings.UnknownVolumes | pkg/disk/rpcserver/controllerserver.go:363-370 | for an id the driver never gave out, deleting and unpublishing are done, and everything else is NotFound |
| CreationMeaning.CreateVolumeMeaning | pkg/disk/rpcserver/controllerserver.go:189-344 | OK if and only if the listing, read to its end, has a compatible disk as first usable entry, or none and a disk was then made from a fit source, shown available and described; the answer names that disk; each error code but the retry-later one exactly |
| CreationMeaning.CreatesWhatWasAsked | pkg/cloud/cloud_manager.go:275-314 | a creation carries the name, zone, group, type and size asked for, and a snapshot exactly when that is the source; then the snapshot's lock was granted and the snapshot shown fit immediately before |
| CreationMeaning.RunsCreateWhatWasAsked | pkg/disk/rpcserver/controllerserver.go:260-299 | the same in every run, with the snapshot's key held when the creation is issued |
| SnapshotMeanings.CreateSnapshotMeaning | pkg/disk/rpcserver/controllerserver.go:725-821 | OK if and only if the fit source's own snapshot is listed first, or the name is free and a snapshot was made and shown available; ready exactly when AVAILABLE, size that of the source in bytes; each error code exactly |
| SnapshotMeanings.DeleteSnapshotMeaning | pkg/cloud/cloud_manager.go:1257-1300 | OK if and only if the cloud showed the snapshot gone; at most one delete, after a sight of the snapshot |
| Observations.DetachIsJustified | pkg/disk/rpcserver/controllerserver.go:556-587 | a detach is issued only by an unpublish, for a volume it saw on the requested node under a lock held ever since |
| Observations.AttachIsJustified | pkg/disk/rpcserver/controllerserver.go:448-489 | an attach is issued only by a publish, for a volume seen unattached and then an instance seen RUNNING, under a lock held ever since |
| Observations.ResizeIsJustified | pkg/disk/rpcserver/controllerserver.go:659-672 | a resize is issued only by an expansion, to its requested size, for a volume seen strictly smaller |
| Attachments.LandsOnWhatWasSeen | pkg/cloud/utils.go:67-68 | when operations land in time, a queued command is what its issuer's request calls for, and as long as its issuer holds the lock, up to its landing, the disk is as the command takes it to be |
| Attachments.DetachedOnlyFromUnpublishedNode | pkg/disk/rpcserver/controllerserver.go:566-587 | when operations land in time, a volume leaves a node only through an unpublish of it from that node |
| Attachments.AttachedOnlyToPublishedNode | pkg/disk/rpcserver/controllerserver.go:474-489 | when operations land in time, a volume gets onto a node only through a publish of it to that node, from being unattached |
| Attachments.PublishOkMeansAttached | pkg/disk/rpcserver/controllerserver.go:491-510 | when operations land in time, a publish that is answering OK has its volume on its node |
| Attachments.SizesOnlyGrow | pkg/disk/rpcserver/controllerserver.go:659-672 | when operations land in time, a size changes only by an expansion in progress, and strictly upwards |
| Attachments.SizesGrowOverRuns | pkg/disk/rpcserver/controllerserver.go:634-681 | over any stretch of a run whose operations land in time, a disk's size never decreases |
| InFlight.LandingInTimeIsExact | pkg/cloud/utils.go:67-68 | over all driver-only runs, volumes leave nodes only by an unpublish, get onto nodes only by a publish, and change size only upwards by an expansion, each holding the lock, if and only if operations must land in time |
| InFlight.PublishOkIsAttachedExactly | pkg/disk/rpcserver/controllerserver.go:491-510 | a publish that is answering OK has its volume on its node if and only if operations must land in time |
| Unpublishing.UnpublishOkMeansDetached | pkg/cloud/cloud_manager.go:507-545 | when operations land in time and Available means detached, an unpublish that is answering OK has its volume off its node, in every run |
| Unpublishing.UnpublishOkIsDetachedExactly | pkg/disk/rpcserver/controllerserver.go:567-592 | over the classes of driver-only runs that holds if and only if both conditions are kept |
| Unpublishing.LateAttachDuringUnpublish | pkg/cloud/utils.go:67-68 | a run in which a left-over attach lands while an unpublish is answering OK |
| Unpublishing.HiddenDetachReported | pkg/cloud/cloud_manager.go:540-543 | a run in which the first poll shows the disk Available before its detach has landed, and the unpublish answers OK |
| InFlight.ExpandOkHasSizeExactly | pkg/cloud/cloud_manager.go:1635-1661 | an expansion that is answering OK has the size it reports if and only if operations land in time, polls show the resize and none that is waited for is dropped |
| Races.StaleDetachHitsAnotherNode | pkg/cloud/utils.go:67-68 | a run after which a left-over detach takes a volume off another node |
| Races.StaleAttachAfterUnpublish | pkg/cloud/utils.go:67-68 | a run after which a left-over attach puts a volume on a node that a successful unpublish was for |
| ResizeRaces.StaleResizeShrinks | pkg/cloud/utils.go:67-68 | a run after which a left-over resize makes a disk smaller while a larger expansion is answering OK |
| ResizeRaces.ImmediatePollReportsTooMuch | pkg/cloud/utils.go:44-50 | a run in which the immediate first poll lets an expansion answer OK before its size is reached |
| ResizeRaces.DroppedResizeReportsTooMuch | pkg/cloud/cloud_manager.go:1635-1661 | a run in which an accepted resize is dropped and reported as done |
| SnapshotNames.SameNameTwice | pkg/disk/rpcserver/controllerserver.go:725-789 | a run in which two concurrent requests create two snapshots of one name |
| SnapshotNames.SameNameElsewhere | pkg/cloud/cloud_manager.go:1439-1443 | for volumes in different zones or groups, a run in which the first request has succeeded before the second creates a snapshot of the same name |
| SnapshotNames.NamesAreKeptApart | pkg/disk/rpcserver/controllerserver.go:686-789 | a name is never used for both of two volumes if and only if they are in one zone and group and requests for it do not overlap |
| Snapshots.NamesAreUnique | pkg/disk/rpcserver/controllerserver.go:725-789 | without overlap names are unique within a zone and group over every run, whatever the sources |
| Expansion.ExpandMeaning | pkg/disk/rpcserver/controllerserver.go:625-681 | an OK reports at least the bytes required and at least the previous size, after one resize or, if none was needed, none |
| Expansion.ExpansionsInRuns | pkg/disk/rpcserver/controllerserver.go:625-681 | the same for every expansion of every run |
| Expansion.ExpandFallsShort | pkg/common/calculator.go:28-30 | an OK with less than was required, for a well-formed range, exactly on overflow |
| Expansion.ExpandOkHasSize | pkg/cloud/cloud_manager.go:1635-1661 | if polls show resizes, none that is waited for is dropped and all land in time, an expansion that is answering OK has the size it reports |
| Expansion.NoSecondResize | pkg/disk/rpcserver/controllerserver.go:659-668 | once a resize has been applied no later request issues it again |
| Deletion.DeleteMeaning | pkg/cloud/cloud_manager.go:365-418 | whatever the answers: at most two releases and two waits, success if and only if the disk was seen gone, exactly one release when it starts recycled, Aborted exactly when nothing was asked |
| Deletion.DeletesInRuns | pkg/cloud/cloud_manager.go:365-418 | the same for every delete of every run |
| Departures.DeletedIsGone | pkg/cloud/cloud_manager.go:1257-1300 | over every run, whatever the cloud and others do, a disk or snapshot the cloud has had is not there while its delete is answering OK, nor ever after |
| Departures.DeleteSucceeds | pkg/cloud/cloud_manager.go:365-418 | for every disk outside the bin there is a run in which its delete releases it, waits for the bin, releases it again, sees it gone and answers OK |
| Deletion.NeverStillExists | pkg/cloud/cloud_manager.go:417-418 | no run reaches the "still exist" exit unless a disk is restored from the bin in the second round of its delete |
| DiskUniqueness.AtMostOneDisk | pkg/disk/rpcserver/controllerserver.go:146-256 | over every run in which listings keep their places while they are read, at most one usable disk exists per name, zone, group and type, although creations may take effect and report an error |
| LookupGaps.UniqueUpToOnePage | pkg/cloud/cloud_manager.go:763-813 | that holds whatever listings do while they are read if and only if none counts more than one page |
| LookupGaps.SecondDiskIsCreated | pkg/cloud/cloud_manager.go:783-813 | the run beyond one page in which a second usable disk is created |
| Snapshots.AtMostOneSnapshot | pkg/disk/rpcserver/controllerserver.go:725-789 | over every run at most one snapshot exists per name and source volume |
| Snapshots.CreateSnapIsJustified | pkg/disk/rpcserver/controllerserver.go:746-789 | a snapshot is created only by a request that was shown, under its source's lock held ever since, that no snapshot of any source in the source's zone and group has the name |
| Snapshots.ComesToSeeNone | pkg/cloud/cloud_manager.go:1453-1536 | only an empty first page leads on to the create, however many pages were counted |
| Provisioning.OnlyTopologyCanConflict | pkg/disk/rpcserver/controllerserver.go:189-218 | a disk the lookup returns always passes the capacity and type checks, and the topology check too for repeatable requirements |
| Provisioning.CreateVolumeIsIdempotent | pkg/disk/rpcserver/controllerserver.go:189-256 | repeating a successful request, whether it made or found its disk, gives the same id, capacity, source and topology, whatever happened in between to other disks |
| Provisioning.ExistingDiskAnyStatus | pkg/cloud/cloud_manager.go:862-879 | a lookup that shows one disk as asked for answers OK for every status but RECYCLED, and only for those |
| Provisioning.NewVolumeHasOrigin | pkg/disk/rpcserver/controllerserver.go:260-332 | a volume answered as newly made is the disk created, made from the request's snapshot, or blank if there is none |
| Provisioning.ExistingDiskAnyOrigin | pkg/disk/rpcserver/controllerserver.go:189-218 | a disk found by name is answered whatever it was made from |
| SnapshotRetry.CreateSnapshotIsIdempotent | pkg/disk/rpcserver/controllerserver.go:683-789 | repeating a successful request gives the same snapshot id and source while the snapshot is there and names are kept unique |
| SnapshotNames.RetryIsIdempotentExactly | pkg/disk/rpcserver/controllerserver.go:683-789 | a repeated request gives the same snapshot over every run if and only if requests for one name, zone and group may not overlap |
| SnapshotNames.RepeatIsRefused | pkg/cloud/cloud_manager.go:1523-1533 | a run in which the repeat is refused because another volume's snapshot of the name is listed first |
| LookupGaps.LookupDecidesOnCollected | pkg/cloud/cloud_manager.go:763-883 | page by page, whatever the listing does meanwhile, the lookup decides on what the paging loop collects |
| LookupGaps.SnapLookupDecidesOnCollected | pkg/cloud/cloud_manager.go:1453-1535 | the same for snapshots |
| NodeProgram.ResumeIsWellFormed | pkg/disk/rpcserver/nodeserver.go:67-404 | every answer whatsoever leaves a node RPC at a point its request leads to |
| NodeProgram.GatedFlagsMeaning | pkg/disk/rpcserver/nodeserver.go:322-326 | a mount flag is in effect exactly when it was passed and the feature is enabled |
| NodeProgram.MkfsNeverDiscards | pkg/common/mount.go:237-254 | every mkfs names its device last and is told not to discard it |
| Devices.GetDevPathBySerial | pkg/disk/rpcserver/nodeserver.go:646-686 | a path is found exactly when exactly one listed device with a readable serial matches |
| Devices.SearchIsTruthful | pkg/disk/rpcserver/nodeserver.go:646-686 | over a faithful listing that is the one device of the node with the serial |
| NodeServer.Server.FormatAndMount | pkg/common/mount.go:72-143 | the code goes through exactly the program's points, from the option scan to the last mount |
| NodeServer.Server.FormatNewDisk | pkg/common/mount.go:144-176 | read-only never formats; otherwise mkfs and then a mount |
| NodeServer.Server.NodeStageVolume | pkg/disk/rpcserver/nodeserver.go:244-352 | conversation and locks for staging, and the outcome as `NodeMeaning` tells it from the answers |
| NodeServer.Server.NodeUnstageVolume | pkg/disk/rpcserver/nodeserver.go:359-405 | the same for unstaging, also for ids that do not parse |
| NodeServer.Server.NodePublishVolume | pkg/disk/rpcserver/nodeserver.go:67-184 | the same for publishing on the node |
| NodeServer.Server.NodeUnpublishVolume | pkg/disk/rpcserver/nodeserver.go:192-235 | the same for unpublishing on the node |
| NodeConversations.ReadOnlyNeverFormats | pkg/common/mount.go:74-80 | with `ro` among the options in effect neither fsck nor mkfs is ever run |
| NodeConversations.MkfsOnlyAfterProbe | pkg/common/mount.go:113-140 | mkfs is run only right after a mount failed and the probe found no format, or the unknown-partition case |
| NodeConversations.StageOrder | pkg/common/mount.go:72-176 | a stage checks exactly the device it found unless read-only, mounts exactly after a check without errors, at once if read-only, or after mkfs, makes a file system exactly when it found nothing to keep and is not read-only, and grows exactly when the check after the mount says so |
| NodeConversations.EmptyDevicesAreFormatted | pkg/common/mount.go:117-129 | a device that the probe finds empty is formatted next, unless read-only |
| NodeConversations.FailedMountsAreProbed | pkg/common/mount.go:106-117 | a failed first mount is followed by that probe |
| NodeConversations.PublishOrder | pkg/disk/rpcserver/nodeserver.go:129-183 | a publish checks its target exactly after making sure of it, and mounts exactly when it is not mounted |
| NodeMeanings.DoesWhatWasAsked | pkg/disk/rpcserver/nodeserver.go:101-178 | every action is the request's own: a publish binds its staging path, or in block mode the device its search answered, to its target; a stage mounts, makes and grows the type asked for on the device its search answered |
| NodeMeanings.BoundReadOnlyExactly | pkg/disk/rpcserver/nodeserver.go:157-168 | a publish binds with `bind`, and with `ro` if and only if that is asked for by `readonly` or an admitted flag of a mount |
| NodeMeanings.NodeMeaning | pkg/disk/rpcserver/nodeserver.go:67-405 | when each of the four RPCs answers OK, and with which code otherwise, as an if-and-only-if on the answers: mounted already or mounted, and for a stage grown when needed; cleaned up |
| NodeMeanings.AnsweredAtOnce | pkg/disk/rpcserver/nodeserver.go:75-99 | what is answered before the lock is tried, and with which code |
| NodeSystem.LocksAreOwned | pkg/common/lock.go:40-54 | the node's lock set is exactly the disjoint union of the keys held by RPCs in flight |
| Formatting.MkfsOnlyOnEmptyDevices | pkg/common/mount.go:113-176 | in every run mkfs is issued only for a device without a file system at that moment, and for the right serial |
| Formatting.DriverKeepsFileSystems | pkg/common/mount.go:72-176 | no step of the driver changes a device that carries a file system |
| Formatting.FileSystemsSurvive | pkg/common/mount.go:72-176 | so a disk that carries a file system keeps it over every run of the four node RPCs |
| MountTables.AtMostOneMount | pkg/disk/rpcserver/nodeserver.go:134-183 | in every run at most one mount per staging or target path |
| MountTables.OkMeansDone | pkg/disk/rpcserver/nodeserver.go:302-350 | while an RPC is answering OK its path is mounted exactly once, or gone, as it reports |
| Mounting.MountedAsAsked | pkg/disk/rpcserver/nodeserver.go:157-183 | from its mount until it gives its lock back, the path of a stage or publish carries exactly the source, file system type and options asked for, a device being the one found by the volume's serial |
| Mounting.OkMeansMountedAsAsked | pkg/disk/rpcserver/nodeserver.go:129-183 | while a stage or publish is answering OK its path carries one mount, which it has made itself as asked, or which it was shown |
| Mounting.MountedBySomeone | pkg/disk/rpcserver/nodeserver.go:129-183 | whatever is mounted at a path was there at first or was mounted there for the path's volume, as that request asked |
| MountTables.RepeatChangesNothing | pkg/disk/rpcserver/nodeserver.go:302-314 | while a repeated stage or publish holds its lock its path stays as it was and its own steps change nothing, whatever else is in flight, and it goes on to OK |
| MountTables.RepeatedUndoChangesNothing | pkg/disk/rpcserver/nodeserver.go:222-235 | while an undo of what is gone holds its lock it stays gone and the undo changes nothing, whatever else is in flight |
| MountTables.UndoRestoresPath | pkg/disk/rpcserver/nodeserver.go:192-405 | when an undo answers OK its path is as it was before the request it undoes, and the two changed the mount table nowhere else, whatever else is in flight |
| MountTables.RepeatAloneChangesNothing | pkg/disk/rpcserver/nodeserver.go:302-314 | a repeated stage or publish that runs alone leaves the whole node as it was |
| MountTables.RepeatedUndoAloneChangesNothing | pkg/disk/rpcserver/nodeserver.go:222-235 | an undo of what is gone that runs alone leaves the whole node as it was |
| MountTables.UnpublishAloneUndoesPublish | pkg/disk/rpcserver/nodeserver.go:192-235 | run alone, an unpublish gives back the whole node as it was before the publish |
| MountTables.UnstageAloneUndoesStage | pkg/disk/rpcserver/nodeserver.go:359-405 | run alone, an unstage gives back the whole mount table as it was before the stage |

## Left out

- The SDK, HTTP, credentials and rate limits: a call answers or fails, before or after taking effect.
- Cloud answers with missing fields, an inexact name filter, or a name query that does not read its own writes: the fields a proof reads are assumed to be there, and listings by name to be exact.
- The order of a listing: each page is cut from the listing as it is at that call, in any order.
- Restarts of the driver and several controller replicas: one lock set is active throughout a run.
- A command that reaches the cloud after its call has returned an error, other than attach, detach and resize: releases, creations and snapshot commands take effect at the call or by the cloud's own later steps.
- Capability checks of the plugin (all capabilities are taken as enabled), validation of snapshot class parameters (one flag), and volume capabilities (one flag).
- VolumeContext, creation times, burst flag and error texts in the responses.
- Characters stand for bytes, and parameter keys are folded by ASCII rules; Go folds further letters.
- Argument checks of the cloud manager that its callers have already made, and a missing cloud client.
- ValidateVolumeCapabilities: it takes no lock and changes nothing.
- ControllerServer.Server.WaitDiskStatus: polls see answers fixed in advance, so what time does to the cloud is not stated there.
- Attachments.DetachedOnlyFromUnpublishedNode: assumes that operations land while their issuers hold the volume, which `InFlight.LandingInTimeIsExact` shows to be exact, and that nobody else attaches or detaches.
- Deletion.NeverStillExists: assumes that no recycled disk is restored while a delete of it is in its second round.
- DiskUniqueness.AtMostOneDisk: assumes that nobody else creates or restores disks, and beyond one page that listings keep their places while they are read.
- Provisioning.CreateVolumeIsIdempotent: makes the same assumptions.
- Formatting.MkfsOnlyOnEmptyDevices: assumes truthful probes, serials that tell disks apart, and that nobody else formats or unplugs a device while a stage works on it.
- MountTables.AtMostOneMount: assumes one volume per path, truthful mount checks, failed mounts that leave nothing behind, and nobody else mounting there.
- MountTables.OkMeansDone: also assumes that undoing RPCs carry the id of the path's volume, since an id that does not parse is locked as it is; so do the three results on repeating and undoing, and those on what is mounted.
- NodeExpandVolume, NodeGetVolumeStats, capability listings, the Identity service and unimplemented RPCs: no state to reason about beyond what is modelled.
- How fsck, mkfs, blkid and mount work inside; a reboot of the node.
