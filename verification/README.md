# vm-to-quadlet: a verified model

vm-to-quadlet turns a KubeVirt virtual machine into Podman Quadlet units. This project models the parts
of it whose guarantees range over all inputs or all runs, and proves them with Dafny 4.11
(`dafny verify dfyconfig.toml`).

| files | what they model |
|---|---|
| `DiskScript`, `DiskSafety`, `DiskRunner` | the two disk provisioning scripts: as a state machine whose commands may fail or be killed at any point, over every history of boots, and as imperative code that refines that machine |
| `PasstNetworks`, `PasstGuarantees` | `forcePasstBinding` and `populateInterfaceStatus`, in place, against a closed form |
| `Mounts`, `PodModel`, `PodStages`, `PodNames`, `PodShape`, `PodWellFormed`, `PodGuarantees`, `PodContainerNames`, `PodDataVolumes`, `PodProvisioning`, `PodDevices`, `Persistence`, `DirScript`, `Survival`, `PodProxies`, `PodContents` | `AdaptForStandalone`: the stages as methods that rewrite a pod, the adapted pod in closed form, well-formedness, container names, what each stage adds in the system's own names and paths, mount order, who may write where, and what survives a restart |
| `VfioGroups` | `resolveVFIOGroups`, with a directory listing and a map iteration in any order |
| `IniText`, `Insertion`, `PostConvert` | `insertBeforeSection` and the post-convert fixups, read through a specification parser |
| `UnitPrinter`, `UnitRoundTrip`, `UnitDirectives`, `UnitInsertion`, `SystemdReader` | the Quadlet unit printer, its round trip, each directive by name, what inserted text does to a printed unit, and both under a reader with continuations and trimming |
| `PasstPatch` | the passt binary patch |
| `Common` | options, bytes, decimal numerals |

## How the source is modelled

**Disk scripts.** The volume is two optional byte files, `DISK` and `TMP`. One constructor of `Pc` stands for
one command. A command completes, fails (and `set -e` leads to the EXIT trap), or is cut short by a kill;
a run may also end between two commands, and the guest may rewrite its disk between runs. `unlink` and
`rename` are atomic. `qemu-img` is known by contract only: `convert` yields the whole image, `create`
zeros, a successful or interrupted `resize` keeps the existing bytes, and an interrupted `convert`,
`create` or `resize` of `TMP` leaves arbitrary bytes there. Under `AnySize` nothing is assumed about the size a
successful command produces; under `Exact` it is the size asked for, zero-filled. A failing `rm` inside
the EXIT trap makes the exit status non-zero. The import script's image is whatever the run finds;
`Import(None)` is a source mount without an image.

**Pods.** Paths are lists of components. Containers carry their name, image, program, mounts and restart
policy; the two provisioning scripts and the patcher are named by their parameters. The rendered
pod is an arbitrary input; theorems about it state what they need: a `compute` container, a well-formed
pod, and for the restart theorems free names and mount points and the two conditions named under
"Left out". `Survival.PlainPodIsReady` shows the hypotheses of the restart theorems met by a plain
VM's pod. Files are located by mounting in list order; `PodGuarantees.AdaptedMountsAreOrdered` says when
mounting by depth gives the same. A container other than compute may write and remove every file below
its writable mounts, by the volume's backing and the sub-path, unless its program is one of the two disk
scripts (their two files) or a bash script of plain `mkdir -p` commands (no file). Between two of
compute's writes the other containers do so in any order and number, and restarts empty every emptyDir.

**Text.** The parser reads section headers, assignments split at the first `=`, blank lines and
comments; what precedes the first header is kept as a nameless section. A directive's name is an enumeration
printed by `KeyName`, so that reading back is by name.

Where code and documentation disagree, the code is modelled: an existing disk is grown with
`qemu-img resize` (`docs/reference.md:83` says `truncate`), and the compute unit gets one inserted line
(`docs/pipeline.md:387-393` lists two).

## What turned out to depend on a condition

- An interface whose name matches no network is sent to `default`; it is linked to a pod network exactly when
  `default` is missing, already pod-only, or some interface's own name (`PasstGuarantees.AllLinkedIff`;
  `PasstGuarantees.UnlinkedExample` is a spec outside the condition).
- A second `forcePasstBinding` may change the spec, a third never does (`PasstGuarantees.SecondPassIsFirstIff`,
  `PasstGuarantees.ThirdPassIsSecond`; `PasstGuarantees.SecondPassExample` is a spec that it changes).
- The grow of an existing disk is not measured afterwards, so a successful run guarantees the requested
  size independently of `qemu-img` exactly when no grow was needed (`DiskSafety.SuccessMeetsSizeIff`).
- A line inserted before `[Service]` is lost to the container when no service section is printed and
  `[Install]` comes last (`UnitInsertion.EnvironmentReachesContainerIff`, `UnitInsertion.LostEnvironment`).
- The adapted pod is well-formed exactly when the rendered pod leaves the added names and mount points free,
  no two imported VMI volumes share a slug, which DNS labels never do, and the VFIO groups are distinct
  and none is `vfio` (`PodGuarantees.AdaptedIsWellFormedIff`, `PodGuarantees.TwinsAreDeclaredTwice`).
- A proxy mounts the private volume without the sub-path that compute may mount, so it reaches compute's
  sockets exactly when those are directly in that volume (`PodProxies.ProxyReachesIff`,
  `PodProxies.SubPodIsNotShared`).
- The state directories survive exactly when the first init container called `virt-handler-dir-init` only
  makes directories. The emitted one does, volume names being DNS labels; a rendered one gets the vm-state claim if none is emitted, and
  may do anything (`Survival.SurvivesIffPersisted`, `Survival.ForeignPodRestarts`).

## Model

| member | source | states |
|---|---|---|
| DiskSafety.StepKeepsInv | pkg/standalone/post_render.go:517-549 | every command of either script, completed, failed or killed, keeps the run invariant: which of DISK and TMP exist, whose bytes they hold, what CURRENT is |
| DiskSafety.RunKeepsInv | pkg/standalone/post_render.go:517-587 | the invariant holds at every point of every run of either script, for any tools |
| DiskSafety.AppearsAtRename | pkg/standalone/post_render.go:541 | the only command that can make DISK appear is the rename, and what it publishes meets size and content requirements |
| DiskSafety.CheckComesBeforeRename | pkg/standalone/post_render.go:537-541 | the only way to the rename is the size check, passed on a fresh measurement of the same TMP |
| DiskSafety.TmpIsFilledByThisRun | pkg/standalone/post_render.go:521-532 | wherever a run works on TMP, that same run has completed the convert or create that filled it |
| DiskSafety.DiskAppearsByRename | pkg/standalone/post_render.go:524-541 | in one run DISK comes into existence only by `mv` of a TMP that this run filled and that just passed the size check, and for an import TMP begins with the whole converted image |
| DiskSafety.RunPublishes | pkg/standalone/post_render.go:541 | a run that starts without a disk and has one at some point has published it by such a rename and not changed it since |
| DiskSafety.HistoryCreatesDiskByRename | pkg/standalone/post_render.go:517-587 | over every history of boots, kills, failures and guest writes from a volume without a disk, a disk that exists was created by one run's checked rename |
| DiskSafety.StalePartialIsIrrelevant | pkg/standalone/post_render.go:522-523 | once the stale .partial is removed, the rest of the run is a run from any other leftover too: two-run noninterference |
| DiskSafety.RunPreservesDisk | pkg/standalone/post_render.go:542-549 | no step or crash of a run removes, shortens or rewrites an existing disk, and a run that asks for no more leaves it alone |
| DiskSafety.HistoryPreservesDisk | pkg/standalone/post_render.go:572-587 | over every history, with any modes and sizes, the disk stays and never shrinks; without guest writes its old bytes are a prefix |
| DiskSafety.SuccessfulRun | pkg/standalone/post_render.go:532-549 | exit status zero means DISK present and as asked for, and no .partial left |
| DiskSafety.SuccessMeetsSizeIff | pkg/standalone/post_render.go:533-546 | success guarantees SIZE whatever sizes qemu-img produces if and only if no existing disk had to grow |
| DiskSafety.SuccessIsProvisioned | pkg/standalone/post_render.go:531-546 | with exact tools a successful run's result is a function of the disk before, the image and SIZE |
| DiskSafety.SuccessfulBootsOfDisk | pkg/standalone/post_render.go:580-584 | successful boots of a disk, with the guest at work in between: what was last written, zero-filled to the largest size asked for since; its length is the maximum of all sizes and the first length |
| DiskSafety.SuccessfulBoots | pkg/standalone/post_render.go:531-584 | the same from nothing: the first content is the first import's image, or nothing |
| DiskSafety.HistoryOfDisk | pkg/standalone/post_render.go:517-587 | over every history with exact tools, with killed, failed and successful boots and guest writes, from any volume: the disk is what was last put on it, zero-filled to a length between what later boots got and what they asked for, and its length is bounded by all boots in the same way |
| DiskSafety.HistoryNeverOvershoots | pkg/standalone/post_render.go:542-549 | over every history of a volume with a disk, the disk is at least as long as any successful boot asked for and never longer than the largest size asked for or than it was |
| DiskSafety.HistoryFromNothing | pkg/standalone/post_render.go:524-549 | over every history of a volume without a disk, if there is one in the end some run created it by its checked rename, and the length is bounded in the same way from that run's image on |
| DiskSafety.RepeatedBootChangesNothing | pkg/standalone/post_render.go:580-587 | successful boots that ask for no more than the disk has change nothing, in either mode |
| DiskSafety.InterruptedBootRecovers | pkg/standalone/post_render.go:517-587 | any number of killed or failed attempts at a boot, then a success: the result is that of one uninterrupted boot |
| DiskSafety.ExitLeavesNoPartial | pkg/standalone/post_render.go:522-523 | a run that exits, with success or not and wherever, leaves no .partial if both rm commands work |
| DiskSafety.HistoryLeavesNoPartial | pkg/standalone/post_render.go:571-572 | over every history nothing is left of any earlier .partial once the last boot has exited so |
| DiskSafety.ImportWithoutImageFails | pkg/standalone/post_render.go:525-529 | without an image under the source mount an import never succeeds and never makes a disk |
| DiskRunner.DataVolume.RunScript | pkg/standalone/post_render.go:517-587 | the script as code: whichever rm, find, qemu-img, stat or mv fails, it was a run of the state machine with that exit status; on every exit the .partial is gone if both rm work; without faults it succeeds unless there is no image |
| DiskRunner.DataVolume.RunBody | pkg/standalone/post_render.go:524-549 | the test for a disk and the two branches refine the state machine |
| DiskRunner.DataVolume.FirstBoot | pkg/standalone/post_render.go:524-541 | the first-boot branch refines the state machine, and succeeds without faults if there is an image |
| DiskRunner.DataVolume.GrowImported | pkg/standalone/post_render.go:533-536 | growing an imported image that is too small, and measuring it again |
| DiskRunner.DataVolume.PublishTmp | pkg/standalone/post_render.go:537-541 | a TMP that is too small is refused, any other is renamed into place |
| DiskRunner.DataVolume.LaterBoot | pkg/standalone/post_render.go:542-548 | the branch for an existing disk refines the state machine |
| PasstNetworks.Vmi.ForcePasstBinding | pkg/standalone/pre_render.go:163-219 | the three loops, in place, compute the closed form Forced of the old networks and interfaces |
| PasstNetworks.Vmi.EnsurePodNetwork | pkg/standalone/pre_render.go:164-176 | a pod network named default is prepended exactly when there is no pod network |
| PasstNetworks.Vmi.BindPasst | pkg/standalone/pre_render.go:178-187 | every interface is left with the passt binding only |
| PasstNetworks.Vmi.LinkInterfaces | pkg/standalone/pre_render.go:189-218 | the nested loop, against the networks and names in closed form |
| PasstNetworks.Vmi.LinkInterface | pkg/standalone/pre_render.go:190-217 | one round: first network of the name rewritten, or the interface renamed and default appended if missing |
| PasstNetworks.NetworksStep | pkg/standalone/pre_render.go:189-218 | one more interface name moves the closed form exactly as one round of the loop moves the list |
| PasstGuarantees.ResolvedNetwork | pkg/standalone/pre_render.go:163-219 | which network the first-match lookup finds for each interface afterwards |
| PasstGuarantees.LinkedIff | pkg/standalone/pre_render.go:189-218 | an interface ends up passt-only on a pod network without Multus if and only if it had a network of its own or default is safe |
| PasstGuarantees.AllLinkedIff | pkg/standalone/pre_render.go:159-219 | all interfaces are linked if and only if each has its own network or default is safe |
| PasstGuarantees.UnlinkedExample | pkg/standalone/pre_render.go:204-217 | a spec whose interface is renamed onto a Multus default and stays unlinked |
| PasstGuarantees.ThirdPassIsSecond | pkg/standalone/pre_render.go:163-219 | a third application never changes the result of the second |
| PasstGuarantees.SecondPassIsFirstIff | pkg/standalone/pre_render.go:163-219 | a second application changes nothing if and only if every interface's network is the empty pod network after the first; also as a condition on the input |
| PasstGuarantees.SecondPassExample | pkg/standalone/pre_render.go:204-217 | a spec on which a second application still changes something |
| PasstGuarantees.NetworksAreConserved | pkg/standalone/pre_render.go:171-176 | networks keep order and names; at most one default joins, in front or at the end, never both |
| PasstGuarantees.InterfacesKeepTheRest | pkg/standalone/pre_render.go:178-206 | every interface keeps its place and all fields but name and binding; it is left with passt alone, and renamed to default if and only if no network has its name |
| PasstGuarantees.NetworksKeepTheRest | pkg/standalone/pre_render.go:189-202 | every network keeps its place and is unchanged in all fields, unless it is the first of some interface's name, which makes it the empty pod network |
| PasstGuarantees.NetworksThatJoin | pkg/standalone/pre_render.go:164-217 | when exactly a default network joins, in front or at the end, and that it is the empty pod network |
| PasstNetworks.Vmi.PopulateInterfaceStatus | pkg/standalone/pre_render.go:149-157 | one status per interface is appended, in order |
| PasstGuarantees.StatusIsAligned | pkg/standalone/pre_render.go:149-157 | status i has the final name of interface i and the pod interface eth<i>, all different for any count |
| Mounts.LastIsLongest | pkg/standalone/post_render.go:173-189 | in a list with no mount point after its descendant, the last covering mount is the longest one, for every path |
| Mounts.RulesAgreeIffOrdered | pkg/standalone/post_render.go:174-182 | with distinct mount points the two rules agree on all paths if and only if the list is so ordered |
| PodGuarantees.AddedMountsAreOrdered | pkg/standalone/post_render.go:173-182 | the device, passt and state mounts, in the order they are added, never hide one another |
| PodGuarantees.AdaptedComputeMounts | pkg/standalone/post_render.go:184-189 | the compute container's mounts: the rendered ones, then exactly the added ones |
| PodGuarantees.AdaptedMountsAreOrdered | pkg/standalone/post_render.go:173-189 | the adaptation keeps the compute mounts ordered, so both overlay rules agree on every path |
| PodStages.Pod.AdaptForStandalone | pkg/standalone/post_render.go:33-66 | the stages in sequence, in place, compute Adapted of the old pod |
| PodStages.Pod.FindPrivateVolumeName | pkg/standalone/post_render.go:227-240 | the loops find the volume of the first compute mount at the private path |
| PodStages.Pod.AddProxies | pkg/standalone/post_render.go:33-39 | console and VNC proxies are appended in that order, if a private volume is mounted |
| PodProxies.ProxiesAreAsked | pkg/standalone/post_render.go:242-282 | in the adapted pod, whenever a compute container mounts the private path: console-proxy with its image, port and virt-serial0 and vnc-proxy with its image, port and virt-vnc stand behind the rendered containers exactly as asked for |
| PodProxies.NoProxies | pkg/standalone/post_render.go:244-247 | if none mounts it, there is no proxy |
| PodProxies.ProxyReachesIff | pkg/standalone/post_render.go:251-261 | through its own mount a proxy reaches the socket that compute has at that path if and only if the rendered compute has it directly in the private volume |
| PodProxies.PrivateMountIsShared | pkg/standalone/post_render.go:251-261 | when nothing else is mounted over the socket, that is if and only if compute mounts the volume without a sub-path |
| PodProxies.SubPodIsNotShared | pkg/standalone/post_render.go:251-261 | a well-formed pod that mounts a sub-path there, whose console proxy reaches another location |
| PodStages.SameLookupBehind | pkg/standalone/post_render.go:242-282 | an appended proxy does not change which private volume the next proxy finds |
| PodStages.Pod.MountInCompute | pkg/standalone/post_render.go:384-392 | mounts are appended to the first compute container and to nothing else |
| PodStages.Pod.MountDevice | pkg/standalone/post_render.go:373-393 | one volume and one compute mount are appended |
| PodStages.Pod.MountHostDevices | pkg/standalone/post_render.go:284-371 | the devices mounted, in order, for any GPUs and host devices |
| PodDevices.NodesAreMounted | pkg/standalone/post_render.go:284-393 | each node of the VM (KVM, TUN, vhost-net, cgroups; per GPU by its name and index nvidia<i> and for the first the four shared nodes, or card<i> and renderD<128+i>, or card<i>; VFIO and the groups) is mounted in compute at its own path, read-only for the cgroups alone |
| PodDevices.OnlyNodesAreMounted | pkg/standalone/post_render.go:284-393 | no other host path is added |
| PodDevices.MentionsIff | pkg/standalone/post_render.go:430-445 | the vendor word is found in any mixture of cases |
| PodStages.Pod.TemplateMetas | pkg/standalone/post_render.go:460-473 | the map built by the loop holds for each name the last template with storage |
| PodDataVolumes.LastTemplateWins | pkg/standalone/post_render.go:461-473 | that lookup is the last-wins rule, stated by positions |
| PodStages.Pod.FindClaimVolume | pkg/standalone/post_render.go:487-493 | the first pod volume of the claim |
| PodStages.Pod.ProvisionOne | pkg/standalone/post_render.go:478-603 | one round of the DataVolume loop |
| PodStages.Pod.ProvisionAt | pkg/standalone/post_render.go:478-603 | a round moves both the appended image volumes and the init containers one volume further along the pure maps |
| PodStages.Pod.InjectDataVolumeInitContainers | pkg/standalone/post_render.go:455-608 | the loop that appends image volumes while it looks claims up computes the pure map over the volumes it started with |
| PodStages.ImportsAreNoClaims | pkg/standalone/post_render.go:488-515 | the image volumes appended so far never change a later claim lookup |
| PodDataVolumes.InitsFollowSelection | pkg/standalone/post_render.go:478-603 | one init container per selected volume, in VMI order, with the right script on the claim's volume |
| PodProvisioning.NeedsDiskIff | pkg/standalone/post_render.go:478-496 | a VMI volume is provisioned if and only if the last template with storage of its DataVolume's name asks for a positive size and the first pod volume on its claim has a name |
| PodProvisioning.AdaptedProvides | pkg/standalone/post_render.go:498-603 | in the adapted pod, the init container of each provisioned volume: the template's size, the directory vmi-disks/<name> where the claim's volume is mounted writable, and for a registry URL the read-only source mount of an image volume with the URL's bare reference |
| PodProvisioning.DiskIsInClaim | pkg/standalone/post_render.go:487-498 | in a well-formed pod that volume is the claim itself, so the disk is at its root |
| PodProvisioning.ProvidedDiskHasSize | pkg/standalone/post_render.go:518-587 | once the script of that init container has succeeded the disk has at least the size the template asks for |
| PodModel.SelectedNeedDisk | pkg/standalone/post_render.go:478-496 | the selection is exactly the volumes with a template with storage, a positive size and a pod volume for the claim, each at its own position, in VMI order |
| PodDataVolumes.SecondInitChangesNothing | pkg/standalone/post_render.go:478-607 | two VMI volumes backed by one DataVolume: after the first script succeeded a successful second one changes nothing |
| PodStages.Pod.CleanupForStandalone | pkg/standalone/post_render.go:829-841 | the partition loop computes the kept init containers and the promoted ones |
| PodShape.PartitionIsExact | pkg/standalone/post_render.go:832-841 | kept and promoted together are the rendered init containers as a multiset; promotion only clears the restart policy |
| PodShape.PartitionKeepsOrder | pkg/standalone/post_render.go:832-841 | kept ones and sidecars each keep their order, and a container is a sidecar if and only if its policy is Always |
| PodShape.KeptAreNoSidecars | pkg/standalone/post_render.go:833-840 | a container is promoted if and only if its policy is Always |
| PodStages.Pod.InjectVirtHandlerDirInit | pkg/standalone/post_render.go:662-704 | the directory container for the private emptyDirs, prepended if there is one |
| PodContents.PrivateVolumesAre | pkg/standalone/post_render.go:676-683 | the private volumes are, in order, the emptyDirs called private or ending in -private-empty |
| PodContents.DirectoriesAreMade | pkg/standalone/post_render.go:673-703 | the first init container of the adapted pod mounts each of them and makes libvirt/qemu in it, and mounts vm-state and makes its three sub-directories |
| PodContents.ExtendedKeepsTheRest | pkg/standalone/post_render.go:206-216 | a container extended by the state stage keeps everything else, and a bash script what it did before |
| PodDataVolumes.PrivateKeyIff | pkg/standalone/post_render.go:706-717 | a volume name has key private if and only if it is private or ends in -private-empty |
| PodStages.Pod.InjectPasstBinaryPatcher | pkg/standalone/post_render.go:759-787 | volume, read-only compute mount and a last init container |
| PodContents.PatcherIsLast | pkg/standalone/post_render.go:759-787 | in the adapted pod the last init container patches into an emptyDir that compute mounts read-only at /passt-bin |
| PodStages.Pod.InjectPersistentStateVolumes | pkg/standalone/post_render.go:148-217 | three volumes, five compute mounts, and vm-state added to the directory container |
| PodShape.AdaptedShape | pkg/standalone/post_render.go:33-66 | the adapted pod in closed form over the rendered one: volumes, order of init containers, order of containers, and only compute's mounts changed |
| PodContents.RenderedPartsStay | pkg/standalone/post_render.go:33-66 | rendered volumes and containers keep their places and are unchanged, but for mounts behind compute's own |
| PodShape.InitOrderIsFinal | pkg/standalone/post_render.go:605-703 | init containers end as directory container, DataVolume inits, kept rendered inits in order, patcher; which one of them also prepares vm-state, or that none does |
| PodShape.NoSidecarRemains | pkg/standalone/post_render.go:832-841 | no init container with policy Always remains after the whole pipeline |
| PodNames.NameInjective | pkg/standalone/post_render.go:287-387 | the names added for devices, imports, passt and state never coincide, for all GPU indices, groups and slugs |
| PodNames.DevicePathInjective | pkg/standalone/post_render.go:327-368 | device mount points never coincide, for all indices and groups but a group called vfio |
| PodNames.DevicePathsUnrelated | pkg/standalone/post_render.go:291-368 | no device mount point lies above another |
| PodGuarantees.GpuDevicesAreDistinct | pkg/standalone/post_render.go:321-344 | no GPU list makes the loop mount a device twice; the shared NVIDIA nodes come with index 0 only |
| PodWellFormed.ProxiesKeepWellFormed | pkg/standalone/post_render.go:244-281 | the proxies mount a declared volume |
| PodWellFormed.AttachKeepsWellFormed | pkg/standalone/post_render.go:373-393 | device volumes with fresh names and paths keep the pod well-formed |
| PodWellFormed.DataVolumesKeepWellFormed | pkg/standalone/post_render.go:478-607 | the DataVolume stage keeps the pod well-formed; its init containers mount declared volumes |
| PodWellFormed.CleanupKeepsWellFormed | pkg/standalone/post_render.go:832-841 | promotion keeps the pod well-formed and leaves compute first of its name |
| PodWellFormed.DirInitKeepsWellFormed | pkg/standalone/post_render.go:673-703 | the directory container mounts declared volumes |
| PodWellFormed.PatcherKeepsWellFormed | pkg/standalone/post_render.go:762-787 | the patcher stage keeps the pod well-formed |
| PodWellFormed.StateKeepsWellFormed | pkg/standalone/post_render.go:152-216 | the state stage keeps the pod well-formed |
| PodGuarantees.AdaptedIsWellFormedIff | pkg/standalone/post_render.go:33-66 | for every rendered well-formed pod with a compute container and any options: the adapted pod is well-formed if and only if no rendered volume has an added name, no rendered compute mount stands at an added path, no two imported volumes share a slug, and the mounted VFIO groups are distinct and none is vfio |
| PodGuarantees.ResolvedGroupsAreGood | pkg/standalone/post_render.go:399-428 | the groups that the host scan finds meet that last condition if and only if none is called vfio, in particular if they are numbers |
| PodGuarantees.AdaptedIsWellFormedForLabels | pkg/standalone/post_render.go:500-504 | with distinct VMI volume names that are DNS labels only the added names and paths matter |
| PodGuarantees.TwinsAreDeclaredTwice | pkg/standalone/post_render.go:500-515 | a well-formed pod that leaves all added names and paths free, and two VMI volumes outside the labels, for which the adapted pod declares a volume twice |
| PodContainerNames.NamesAreConserved | pkg/standalone/post_render.go:33-66 | the container names of the adapted pod are, as a multiset, those of the rendered pod and those of the added containers |
| PodContainerNames.ContainerNamesAreDistinctIff | pkg/standalone/post_render.go:33-66 | all init containers and containers have different names if and only if the rendered ones do, none of them has an added name, and no two volumes provisioned in the same mode share a slug |
| Persistence.LocateState | pkg/standalone/post_render.go:173-189 | where each path below a state mount ends up: its sub-path of the vm-state claim, or one of the two intermediate emptyDirs |
| PodContents.StateIsInClaim | pkg/standalone/post_render.go:148-181 | nvram, swtpm and swtpm-localca below the private path are the sub-directories of that name in the claim <vm>-vm-state |
| PodContents.LibvirtIsInMemory | pkg/standalone/post_render.go:164-176 | anything else below libvirt is in the emptyDir private-libvirt |
| PodContents.QemuIsInMemory | pkg/standalone/post_render.go:164-176 | anything else below libvirt/qemu is in the emptyDir private-libvirt-qemu |
| Persistence.LocateElsewhere | pkg/standalone/post_render.go:173-189 | every other private path stays where the rendered pod had it |
| Persistence.PersistedLocationsAreDistinct | pkg/standalone/post_render.go:179-181 | no two paths in the three state directories share a location |
| DirScript.StateDirsOnlyIff | pkg/standalone/post_render.go:199-216 | word by word, the extended directory script only makes directories if and only if the script it extends does |
| DirScript.DirInitMakesOnlyDirs | pkg/standalone/post_render.go:673-698 | the script joined from the mkdir commands only makes directories, for any volumes with plain names |
| Survival.KeptInStore | pkg/standalone/post_render.go:53-66 | a file outside memory that no other container may touch survives every history of restarts, of writes and removals by the other containers, and of compute's writes elsewhere |
| Survival.SurvivesIff | pkg/standalone/post_render.go:652-660 | what compute writes at a path survives all histories if and only if the path does not end up on an emptyDir and no other container of the pod, by its program, its mounts and their volumes, may touch it |
| Survival.OnlyDirInitMounts | pkg/standalone/post_render.go:199-216 | besides compute no container of the adapted pod mounts vm-state but the one extended with its sub-directories |
| Survival.StateIsShieldedIff | pkg/standalone/post_render.go:191-216 | no other container of the adapted pod may touch a file of the vm-state claim if and only if the first init container called virt-handler-dir-init, if any, only makes directories |
| Survival.DirInitIsTameIf | pkg/standalone/post_render.go:662-703 | which holds if that container is the emitted one, or if no kept rendered init container has the name |
| Survival.SurvivesIffPersisted | pkg/standalone/post_render.go:128-216 | of the private paths rendered on an emptyDir exactly those under nvram, swtpm and swtpm-localca survive all histories, provided the container called virt-handler-dir-init only makes directories, and none does otherwise |
| Survival.PlainPodIsReady | pkg/standalone/post_render.go:219-240 | the hypotheses on the rendered pod are met by a plain VM's pod, under all options |
| Survival.PlainPodRestarts | pkg/standalone/post_render.go:128-147 | of that pod's files the UEFI variables survive restarts and the console sockets do not |
| Survival.ForeignPodRestarts | pkg/standalone/post_render.go:206-216 | a pod that brings its own virt-handler-dir-init and no volume called private: its UEFI variables need not survive |
| VfioGroups.ResolveVfioGroups | pkg/standalone/post_render.go:399-428 | the result is strictly ascending and has exactly the groups of readable PCI entries; a failed scan is reported |
| VfioGroups.GroupListIsDeterministic | pkg/standalone/post_render.go:409-427 | any order of the directory and of the map iteration gives the same list |
| VfioGroups.GroupListSpelledOut | pkg/standalone/post_render.go:409-427 | the groups of the entries with a colon in their name and a readable link, each once, each smaller than the next at their first difference or a proper prefix of it |
| VfioGroups.AscendingListsAreEqual | pkg/standalone/post_render.go:422-427 | a set of groups has one strictly ascending list |
| Insertion.IndexIsHeaderLine | pkg/standalone/post_convert.go:75-81 | the first marker found in the text is the newline before the first later line that begins with the bracketed name |
| Insertion.InsertedLines | pkg/standalone/post_convert.go:75-82 | every original line is kept, in order and whole; the extra lines go in together in front of the header line, or at the end |
| Insertion.InsertCommutes | pkg/standalone/post_convert.go:82 | entries inserted into a section stay where they were put whatever text follows |
| Insertion.InsertedEntries | pkg/standalone/post_convert.go:73-82 | on any text the insertion adds exactly its entries to one section of the parsed file and leaves all others as they were |
| Insertion.InsertionAppends | pkg/standalone/post_convert.go:75-82 | that section is the one right before the header, complete, or the last one if there is no header line |
| Insertion.EntriesOfInsertAt | pkg/standalone/post_convert.go:73-82 | looked up by section name, the named section gains the entries together, in order and at a known position, and no other name gains any |
| Insertion.EntriesOfInserted | pkg/standalone/post_convert.go:73-82 | the same on any text: the entries go behind those read before the insertion point, into the section that was being read there |
| PostConvert.InjectPodPublishPorts | pkg/standalone/post_convert.go:45-71 | only the first pod unit changes, in place, by the PublishPort lines asked for |
| PostConvert.InjectPasstBinaryPath | pkg/standalone/post_convert.go:29-40 | only the first compute unit changes, in place |
| PostConvert.ApplyPostConvertFixups | pkg/standalone/post_convert.go:14-22 | ports first, then the PATH if asked for |
| PostConvert.FixupsPerFile | pkg/standalone/post_convert.go:14-71 | file by file: names kept, the two fixups never meet, all other files untouched |
| PostConvert.PortsLandInPodIff | pkg/standalone/post_convert.go:60-69 | on any text the ports are published by [Pod], behind what it had so far, if and only if that section stands right before the first [Install] line, or is last without one |
| PostConvert.FixedPodPublishes | pkg/standalone/post_convert.go:45-71 | after the fixups <vm>.pod, if [Pod] stands there, publishes each requested port under its own number on both sides, VNC before serial, and all it published before |
| UnitPrinter.RenderContainerUnit | pkg/quadlet/render.go:11-20 | the four writers on a shared buffer print exactly the lines of the unit |
| UnitPrinter.RenderVolumeUnit | pkg/quadlet/render.go:23-41 | likewise for volume units |
| UnitPrinter.Buffer.WriteUnitSection | pkg/quadlet/render.go:43-58 | appends the section's lines, or nothing if it is empty |
| UnitPrinter.Buffer.WriteContainerSection | pkg/quadlet/render.go:60-117 | appends the eighteen directives in order, one line per value |
| UnitPrinter.Buffer.WriteServiceSection | pkg/quadlet/render.go:119-134 | appends the section's lines, or nothing if it is empty |
| UnitPrinter.Buffer.WriteInstallSection | pkg/quadlet/render.go:136-144 | appends the section without a closing blank line, or nothing |
| UnitPrinter.Buffer.Each | pkg/quadlet/render.go:51-56 | a directive with several values is one line per value |
| UnitPrinter.KeyNameInjective | pkg/quadlet/render.go:61-116 | no two directives are printed under one name |
| UnitDirectives.ContainerDirectives | pkg/quadlet/render.go:60-117 | read from the printed text by its documented name, each of the eighteen container directives has its own values and no others |
| UnitDirectives.NoOtherDirectives | pkg/quadlet/render.go:60-117 | the container section has no other directive |
| UnitDirectives.OtherSectionDirectives | pkg/quadlet/render.go:43-144 | so for the seven directives of the unit, service and install sections |
| UnitDirectives.VolumeUnitDirectives | pkg/quadlet/render.go:23-41 | and for volume units |
| UnitRoundTrip.ValuesOfEntries | pkg/quadlet/render.go:60-117 | each directive is read back from the printed section despite all the others |
| UnitRoundTrip.ParsePrintedContainerUnit | pkg/quadlet/render.go:11-20 | the printed text parses to the emitted sections, even with values that contain = or begin with [ |
| UnitRoundTrip.PrintedContainerUnitReadsBack | pkg/quadlet/render.go:11-144 | parse of print is the unit |
| UnitRoundTrip.ContainerUnitRoundTripIff | pkg/quadlet/render.go:11-144 | parse of print is the unit if and only if no string has a line break and the stop timeout is not negative |
| UnitRoundTrip.ContainerUnitPrintingIsInjective | pkg/quadlet/render.go:11-144 | different units are printed differently |
| UnitRoundTrip.VolumeUnitRoundTripIff | pkg/quadlet/render.go:23-41 | parse of print is the volume unit if and only if no string has a line break |
| UnitInsertion.PrintedHeaderLine | pkg/quadlet/render.go:119-134 | the first [Service] line of a printed unit is its header, whatever the values contain |
| UnitInsertion.InsertionMeetsPrinter | pkg/standalone/post_convert.go:29-39 | read back, an inserted Environment line is one more environment, or nothing at all in the fallback after [Install] |
| UnitInsertion.EnvironmentReachesContainerIff | pkg/standalone/post_convert.go:73-82 | the environment is extended if and only if [Service] is printed or [Install] is not |
| UnitInsertion.LostEnvironment | pkg/standalone/post_convert.go:75-82 | a unit without [Service] and with [Install] last, which reads back unchanged after the insertion |
| UnitInsertion.FixedComputeReadsBack | pkg/standalone/post_convert.go:14-40 | after both fixups <vm>-compute.container, if printed, reads back with /passt-bin in front of the system's PATH behind its other environments, in all cases but that one |
| SystemdReader.ReadersAgree | pkg/quadlet/render.go:11-144 | a reader with line continuations and trimming sees the same sections in every text whose lines invite neither |
| SystemdReader.ContinuedValue | pkg/quadlet/render.go:43-144 | a value printed with a backslash at its end takes the next directive with it |
| SystemdReader.TidyUnitReadsBack | pkg/quadlet/render.go:11-144 | a printed unit whose values invite neither is read back under that reader too |
| SystemdReader.TidyInsertionMeetsPrinter | pkg/standalone/post_convert.go:29-39 | and so is an inserted Environment line |
| PasstPatch.PatchBinary | pkg/standalone/post_render.go:741-755 | copy, compare with od, overwrite with dd: the output is Patched of the source bytes |
| PasstPatch.DdRead | pkg/standalone/post_render.go:748 | at most count bytes from skip, fewer at the end of the file |
| PasstPatch.DdWrite | pkg/standalone/post_render.go:751 | only the bytes at seek are overwritten |
| PasstPatch.ComparesEqualIff | pkg/standalone/post_render.go:747-749 | the hexadecimal strings are equal if and only if the six bytes are the expected ones |
| PasstPatch.PatchIsExact | pkg/standalone/post_render.go:735-751 | same length, and a byte differs if and only if the six bytes match and it is the first byte of the operand |
| PasstPatch.JumpIsRedirected | pkg/standalone/post_render.go:735-738 | the decoded jump moves from 0x28235 to 0x281bb, opcode untouched |
| PasstPatch.PatchIsIdempotent | pkg/standalone/post_render.go:741-755 | patching a patched file is the identity |

## Left out

- Rendering by KubeVirt, its defaults and mutators, and the vendored converter: libraries whose code is not part of this model; a rendered pod is an arbitrary input under the stated hypotheses.
- The command line, YAML reading, error hints, TAR and file output, warnings on stderr, the version package: input and output only.
- Validation lists, PVC stubs, annotations, the readiness probe, the environment variables of the compute container, security contexts, sysctls, node selectors, resource stripping and the generateName conversion: none of them touches the networks, volumes, mounts, init containers or unit text that the theorems are about.
- Shell parsing and quoting, and the real file system: the disk scripts are sequences of abstract commands over two files, the directory script is split at blanks; directories, ownership and free space are not modelled.
- IniText.Parse: reads neither line continuations nor surrounding white space, unlike systemd.syntax(7); `SystemdReader` reads both, and its theorems cover values that end in no backslash and begin and end with no blank. Quotes, specifiers and escapes inside values are part of the value in both.
- PodModel.ToLower: lowers ASCII letters only, as volume names are ASCII; Unicode case mapping is not modelled.
- VfioGroups.Sorted: stands for the library sort; the real algorithm is not modelled, only a sort by bytewise string order.
- Survival.MayWrite: knows files by volume and path, so two claims that an administrator has bound to the same storage are different, and a host path inside a claim's storage is not seen.
- Survival.SurvivesIffPersisted: asks that no rendered volume is the vm-state claim itself and that rendered init containers run command lines, since the embedded scripts come from the adaptation only.
- PodStages.Pod.MountHostDevices: takes the VFIO groups as part of the VMI value; finding them is `VfioGroups.ResolveVfioGroups`, whose result meets the hypothesis on them by `PodGuarantees.ResolvedGroupsAreGood`, and a failed scan counts as no groups.
- UnitPrinter.Buffer.Each: stands for every loop and every conditional line of the section writers, which print a directive once per value; a directive that is printed or omitted has one or no value.
- Aliasing of the Go slices: each method owns its pod, VMI or buffer; `UnitFile` slices are arrays updated in place.
