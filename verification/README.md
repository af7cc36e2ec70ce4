# Deployment scheduling, proved

A Dafny model of the parts of the shenanigans deployment tool where order and
shared state matter, with proofs over every input and every run.

* **The graph of a unit and its runs.** `Unit` in the libvirt provider loops over
  configs, machines, inputs and helmfiles, appends to four dependency slices and
  hands slices, not copies, to each command it registers. `Graph` says for each
  resource what it must wait for, independently of the loops. `UnitBuilder` is the
  loops themselves over Go slices whose backing arrays are shared, and proves that
  what the engine reads back is that graph. `RegistrationOrder` is the order they
  register in: complete, and without repetition; `ResourceNames` says when the
  names are without repetition, too. `Images` is the link each config's loop
  begins with, which can end the unit. `GoGrowth` is how `append` grows in Go
  1.22, `Capacity` what that leaves behind the end of `vmDepends`, and `RoomTable`
  when that is too much. `Executor` runs a graph with unbounded parallelism and
  proves what holds in every run; `GraphLaws` and `RunLaws` say it resource by
  resource.
* **The command on each machine.** `RemoteCmd` has the readiness loop, the service
  hacks and the rke2 config by role; `Cluster` ties them to the graph: who
  bootstraps, who joins, and when.
* **Addresses.** `Network` has the in-place decrement of one address known under
  three names, and what each "auto" host gets.
* **The file cache.** `FileCache` is the cache as steps of any number of clients
  that may crash or be cleaned up at any point, and one call of `CacheInput` among
  them; `Universe` is the caching loop and what it guarantees to `Unit`.

## Results that go beyond the code's comments

* `k8sDepends` and `vmDepends` share an array. If that array has room for more than
  twice the entries in use, appending one to the other writes over the slot that
  holds the prime install, and a joining node no longer waits for the prime.
  `UnitBuilder.SlicesKeptExactly` and `Cluster.JoinOrderedExactly` give the exact
  condition, on the site and the growth policy of `append` alone.
* Go's policy does leave such room, because it rounds a doubled capacity up to a size
  class. A cluster loses the order exactly if its inputs sent and its machines are
  (0, 17), (0, 72 to 75), (1, 6), (1, 15), (4, 7), (8, 4), (11, 4) or (14, 4):
  `Cluster.GoJoinOrderedExactly`. The shipped configurations send four inputs to two,
  three or four machines.
* A unit ends at the first config whose base image cannot be linked, and so at the
  first that repeats the name of another, with the volumes and machines before it and
  nothing else: `UnitBuilder.BuildUnit` and `Images.CompletesIff`. In a unit that
  completes, no config overwrites the prime, every machine has its place, and exactly
  the "default" and "agent" machines get an install: `Images.CompletedKeepsVms` and
  `Cluster.InstallsCoverCluster`.
* Without a prime, the commands that connect to it are assumed to be registered all
  the same and never to finish. Then every run can complete if and only if there is a
  prime or nothing connects to one: `Executor.CompletesExactly`.
* The units of a program that complete, if their names hold no dash, space or colon,
  repeat no name for the engine to reject if and only if they have different names and
  no applied list repeats a helmfile: `ResourceNames.CompletedNamesDistinctExactly`.
  With a dash, two units can meet: `ResourceNames.NamesMeet`.
* The kubeconfig for the vip is rewritten without waiting for kube-vip to be applied:
  `RunLaws.VipConfigUnordered`.
* Nothing waits for the copied kubeconfig, although every helmfile apply names that
  file: `Executor.KubeConfigUnordered` and `Executor.KubeConfigBeforeExactly`.
* `CacheInput` can return nil without the file being there, because the error of
  the rename is dropped: `FileCache.NilWithoutFile`. `FileCache.CacheDir.CacheInput`
  has the exact condition: the rename fails, or a clean-up runs between the hashing
  and the rename.
* The vip argument survives the trip to the machine if and only if neither the
  address nor the name has a colon: `RemoteCmd.VipRoundTrip`.
* Auto hosts get addresses strictly inside the range if and only if there are at most
  two fewer of them than addresses: `Network.AutoHostsInsideExactly`.

## Assumptions

* A `DependsOn` list is read from the slice it was given, and as late as possible:
  when `Unit` has returned.
* `append` belongs to Go's runtime, which is not part of the repository. `GoGrowth`
  states the policy of the version that go.mod names, for elements of 16 bytes that
  hold pointers; every result that does not name it holds for any policy.
* Random host names, temporary names and client identifiers are fresh.
* A hack ends only after the apply of its helmfile has started, since the service
  it patches comes from that apply; the apply is allowed to wait for the hack.
* A control-plane install finishes only by leaving its polling loop, so a run in
  which a node never becomes Ready is one in which that install does not finish.
* `cidr.IPDecr` belongs to a library outside the repository and is modelled as a
  borrow from the last byte on; the range of a cidr ends at its broadcast address.
* A command that connects to a prime which does not exist has an unknown address, is
  registered and cannot finish.
* The network has a host: the code reads `Hosts[0]` without checking.
* Names with a random part are fresh, so only the others can repeat.

## Model

| member | source | states |
|---|---|---|
| Units.VmsListExactly | pkg/providers/libvirt/libvirt.go:248-275 | exactly the machines numbered below their config's count are listed |
| Units.VmsInOrder | pkg/providers/libvirt/libvirt.go:248-275 | they are listed config by config and number by number |
| Units.VmsDistinct | pkg/providers/libvirt/libvirt.go:248-275 | no machine is created twice |
| Units.PrimeIs | pkg/providers/libvirt/libvirt.go:527-532 | the prime is the last machine that has number 0 of a config named default |
| Units.GroupIs | pkg/providers/libvirt/libvirt.go:533-539 | the list of a name holds that config's other machines, in creation order: all but number 0 of a config named default |
| Images.CompletesIff | pkg/providers/libvirt/libvirt.go:253-261 | a unit gets past its loops if and only if every link works, no path is taken and no two configs have the same |
| Images.CompletesIffDistinct | pkg/providers/libvirt/libvirt.go:253-261 | with nothing in the way, if and only if its configs have different names |
| Images.CompletedKeepsVms | pkg/providers/libvirt/libvirt.go:527-539 | in a unit that completes, every machine is the prime or on its list, and the sizes sum to the total of the counts |
| Images.CompletedHasOnePrime | pkg/providers/libvirt/libvirt.go:527-532 | in a unit that completes, the prime is the only first machine of a default config |
| Units.VmsPartitioned | pkg/providers/libvirt/libvirt.go:527-539 | a machine is on one list, once, and the prime on none |
| GoSlices.Append | pkg/providers/libvirt/libvirt.go:523-524 | append gives old contents and new, reuses the array exactly when the capacity allows, and keeps every slice within the appended one |
| GoSlices.AppendFork | pkg/providers/libvirt/libvirt.go:597-694 | appending a slice to the one it was forked from overwrites its last slot exactly when done in place |
| Graph.InVmDeps | pkg/providers/libvirt/libvirt.go:406-524 | vmDepends after v machines is exactly what sets those machines up, accumulated or reset |
| Graph.AfterK8sHold | pkg/providers/libvirt/libvirt.go:694-697 | vmDepends after the k8s block is the setup and every install of the cluster |
| Graph.HelmDepsHold | pkg/providers/libvirt/libvirt.go:694-799 | what helmfile i waits for: all setup, cluster, packages, and what each earlier step added |
| GraphLaws.MachineResourcesAre | pkg/providers/libvirt/libvirt.go:281-415 | which resources each machine has |
| GraphLaws.PackageResourcesAre | pkg/providers/libvirt/libvirt.go:417-477 | packages exist on machines of an online unit, two logs on all |
| GraphLaws.InputResourcesAre | pkg/providers/libvirt/libvirt.go:479-521 | copies and installs exist for each input with a destination |
| GraphLaws.UnitResourcesAre | pkg/providers/libvirt/libvirt.go:263-639 | one ssh config, one volume for each config, prime install and kubeconfig for kind k8s |
| GraphLaws.AdminsAre | pkg/providers/libvirt/libvirt.go:647-668 | joins of the default machines but number 0 |
| GraphLaws.WorkersAre | pkg/providers/libvirt/libvirt.go:670-692 | joins of the agent machines |
| GraphLaws.HelmResourcesAre | pkg/providers/libvirt/libvirt.go:711-799 | applies of an online unit named upstream without NOHELMFILE, hacks for ai and nexus, a kubeconfig for kube-vip |
| GraphLaws.MachineWaitsAre | pkg/providers/libvirt/libvirt.go:281-415 | exactly what each step of a machine waits for |
| GraphLaws.InputWaitsAre | pkg/providers/libvirt/libvirt.go:490-513 | an install waits for its copy and the machine, a copy for the machine alone |
| GraphLaws.PackageWaitsAre | pkg/providers/libvirt/libvirt.go:417-477 | exactly what packages and logs wait for: the setup of earlier machines and the own remote check |
| GraphLaws.SshConfigWaitsAre | pkg/providers/libvirt/libvirt.go:548-592 | the ssh config waits for the setup and the address of every machine |
| GraphLaws.PrimeInstallWaitsAre | pkg/providers/libvirt/libvirt.go:610-622 | exactly what the prime install waits for |
| GraphLaws.KubeConfigWaitsAre | pkg/providers/libvirt/libvirt.go:635-639 | exactly what the copied kubeconfig waits for |
| GraphLaws.JoinWaitsAre | pkg/providers/libvirt/libvirt.go:647-692 | exactly what a join waits for |
| GraphLaws.HelmWaitsAre | pkg/providers/libvirt/libvirt.go:720-766 | exactly what an apply and a hack wait for |
| GraphLaws.VipConfigWaitsAre | pkg/providers/libvirt/libvirt.go:780-799 | the kubeconfig for the vip waits for the prime install and the setup, and not for its apply |
| Graph.VmDepsLength | pkg/providers/libvirt/libvirt.go:479-524 | the list has 2n + f n(n+1)/2 entries for n machines and f inputs |
| Graph.SentCounts | pkg/providers/libvirt/libvirt.go:479-483 | f is the number of inputs with a destination |
| Graph.VmDepsDistinct | pkg/providers/libvirt/libvirt.go:479-524 | these entries name n (2+f) resources |
| UnitBuilder.Builder.RegisterVm | pkg/providers/libvirt/libvirt.go:586-592 | a command registered with vmDepends reads as declared from then on |
| UnitBuilder.Builder.AppendVm | pkg/providers/libvirt/libvirt.go:523-524 | appending to vmDepends changes no dependency list handed out before |
| UnitBuilder.Builder.BuildDomain | pkg/providers/libvirt/libvirt.go:281-360 | disks and domain of a machine, with the outputs they use |
| UnitBuilder.Builder.CheckVm | pkg/providers/libvirt/libvirt.go:369-415 | key check, remote binary, its check and the motd, each after what it needs |
| UnitBuilder.Builder.InstallPackages | pkg/providers/libvirt/libvirt.go:417-438 | packages wait for vmDepends at that point, iscsid for the packages |
| UnitBuilder.Builder.FetchLogs | pkg/providers/libvirt/libvirt.go:452-477 | two log copies wait for vmDepends, and nothing for them |
| UnitBuilder.Builder.SendInputs | pkg/providers/libvirt/libvirt.go:479-521 | each input with a destination is copied, then installed, and only those |
| UnitBuilder.Builder.Gather | pkg/providers/libvirt/libvirt.go:523-524 | vmDepends gains the motd and every install so far |
| UnitBuilder.Builder.File | pkg/providers/libvirt/libvirt.go:526-539 | the machine becomes the prime or joins the list of its config |
| UnitBuilder.Builder.BuildRow | pkg/providers/libvirt/libvirt.go:275-540 | the loop over the count keeps lists, numbering and filing right |
| UnitBuilder.Builder.BuildVms | pkg/providers/libvirt/libvirt.go:248-541 | the loop over configs registers every volume and machine resource up to the first config whose image is not linked |
| UnitBuilder.Builder.WriteSshConfig | pkg/providers/libvirt/libvirt.go:548-592 | the ssh config uses every domain and waits for vmDepends |
| UnitBuilder.Builder.InstallPrime | pkg/providers/libvirt/libvirt.go:600-622 | the prime install waits for every machine; the k8s slice forks off |
| UnitBuilder.Builder.InstallAdmins | pkg/providers/libvirt/libvirt.go:647-668 | each other default machine gets one install that waits for the k8s slice |
| UnitBuilder.Builder.InstallWorkers | pkg/providers/libvirt/libvirt.go:670-692 | each agent machine gets one install that waits for the k8s slice |
| UnitBuilder.Builder.Absorb | pkg/providers/libvirt/libvirt.go:694 | the append of the k8s slice, the capacity after it, and the graph it leaves for either outcome |
| UnitBuilder.Builder.BuildCluster | pkg/providers/libvirt/libvirt.go:600-697 | the whole k8s block |
| UnitBuilder.Builder.BuildStep | pkg/providers/libvirt/libvirt.go:720-800 | one helmfile: hack, apply, rewritten kubeconfig |
| UnitBuilder.Builder.BuildOnline | pkg/providers/libvirt/libvirt.go:700-802 | packages join vmDepends, then the helmfiles in order |
| UnitBuilder.Builder.Build | pkg/providers/libvirt/libvirt.go:234-805 | all of Unit, with its prime, if any, and lists of machines, or the part before the first image that is not linked |
| RegistrationOrder.NextRow | pkg/providers/libvirt/libvirt.go:248-275 | the machines of a config are numbered on from those of the configs before it |
| RegistrationOrder.InConfigOrder | pkg/providers/libvirt/libvirt.go:248-541 | after c configs, exactly their volumes and the resources of their machines are registered |
| RegistrationOrder.InHelmOrder | pkg/providers/libvirt/libvirt.go:720-800 | after i helmfiles, exactly their hacks, applies and rewritten kubeconfigs are added |
| RegistrationOrder.OrderComplete | pkg/providers/libvirt/libvirt.go:234-805 | exactly the declared resources are registered |
| RegistrationOrder.OrderUnique | pkg/providers/libvirt/libvirt.go:234-805 | no turn of a loop registers a resource that another has registered |
| ResourceNames.UnitNamesDistinctExactly | pkg/providers/libvirt/libvirt.go:259-780 | over units with plain names, no fixed name is repeated if and only if unit names differ and no unit repeats one by itself |
| ResourceNames.CompletedNamesDistinctExactly | pkg/providers/libvirt/libvirt.go:259-780 | over such units that complete, if and only if unit names differ and no applied list repeats a helmfile |
| ResourceNames.NamesMeet | pkg/providers/libvirt/libvirt.go:263-264 | two units with dashes in their names whose volumes have one name |
| UnitBuilder.BuildUnit | pkg/providers/libvirt/libvirt.go:234-805 | past its loops, the graph read back from the slices is the declared one, up to one slot that the growth policy decides, and that one too unless there is room; else it is exactly what comes before the config that is not linked |
| GoGrowth.GoGrowSuffices | pkg/providers/libvirt/libvirt.go:406-694 | Go's policy provides at least what an append needs |
| GoGrowth.GoMoreThanDoubles | pkg/providers/libvirt/libvirt.go:406-694 | Go's policy exceeds twice the need, for capacities of up to 591 and no more |
| Capacity.LengthsMatch | pkg/providers/libvirt/libvirt.go:406-524 | the lengths of the lists, from the numbers of machines and inputs sent alone |
| Capacity.RoomNeedsSlack | pkg/providers/libvirt/libvirt.go:406-694 | there is room only while the policy more than doubles |
| RoomTable.GoRoomExactly | pkg/providers/libvirt/libvirt.go:406-694 | under Go's policy, a cluster has room if and only if its numbers of inputs sent and of machines are in a table of eleven pairs |
| Capacity.GoRoomIsShort | pkg/providers/libvirt/libvirt.go:406-694 | a list of more than 295 entries has no room under Go's policy |
| UnitBuilder.SlicesKeptExactly | pkg/providers/libvirt/libvirt.go:597-798 | every dependency list keeps its contents if and only if the unit is not k8s, has no machine, or the capacity is at most twice the length |
| UnitBuilder.GoKeptExactly | pkg/providers/libvirt/libvirt.go:597-798 | under Go's policy the lists are as intended unless the unit is a cluster in the table |
| Executor.AncestorPrecedes | pkg/providers/libvirt/libvirt.go:369-402 | in every run every ancestor, however distant, is done before a resource starts |
| Executor.RunLength | pkg/providers/libvirt/libvirt.go:234-805 | a run has at most two steps for each resource |
| Executor.SameEdgesSameRuns | pkg/providers/libvirt/libvirt.go:237-240 | order and repetition in the lists change no run |
| Executor.Ranked | pkg/providers/libvirt/libvirt.go:234-805 | the graph is complete and has no cycle |
| Executor.SetupPrecedes | pkg/providers/libvirt/libvirt.go:597-616 | the whole-unit barrier: every machine is set up before the prime install, any join and any apply |
| RunLaws.MachineComesUp | pkg/providers/libvirt/libvirt.go:263-360 | in every run a domain follows its disks, and its disk the volume of its config |
| RunLaws.MachineInOrder | pkg/providers/libvirt/libvirt.go:369-415 | in every run the key check precedes the copy of the remote binary, its check and the motd, and the copy the check |
| RunLaws.MachineIsUpFirst | pkg/providers/libvirt/libvirt.go:362-415 | and the domain precedes them all |
| RunLaws.InputInOrder | pkg/providers/libvirt/libvirt.go:490-513 | in every run an input is copied to a machine that is up before it is installed |
| RunLaws.PackagesInOrder | pkg/providers/libvirt/libvirt.go:417-477 | in every run packages and logs follow the remote check of their machine, and iscsid its package |
| RunLaws.EarlierMachinesFirst | pkg/providers/libvirt/libvirt.go:417-477 | and the checks, motds and installs of the machines before it |
| RunLaws.WholeSetupFirst | pkg/providers/libvirt/libvirt.go:597-766 | in every run every machine is up, checked and has every copy and install before the cluster, the ssh config and any helmfile |
| RunLaws.PrimeIsUpFirst | pkg/providers/libvirt/libvirt.go:603-639 | in every run the prime's domain precedes its install and the copied kubeconfig |
| RunLaws.JoinsAreUpFirst | pkg/providers/libvirt/libvirt.go:647-692 | and with the node's own domain every join |
| RunLaws.PrimeInstallFirst | pkg/providers/libvirt/libvirt.go:610-692 | in every run of the intended graph the prime install precedes the copied kubeconfig and every join |
| RunLaws.PrimeInstallBeforeHelm | pkg/providers/libvirt/libvirt.go:610-799 | and every apply and the kubeconfig for the vip |
| RunLaws.ApplyAfterReady | pkg/cmd/remote/remote.go:351-391 | before an apply starts, every control-plane node has been seen Ready |
| RunLaws.HackEndsUpdated | pkg/cmd/remote/remote.go:42-93 | a hack that is done has ended with its first update that worked |
| RunLaws.HackWithinApply | pkg/providers/libvirt/libvirt.go:720-777 | a hack ends after its apply has started and before it ends |
| RunLaws.SideProductsUnordered | pkg/providers/libvirt/libvirt.go:452-639 | some run completes everything but ssh config, kubeconfig copy and logs, and starts none of them |
| RunLaws.VipConfigUnordered | pkg/providers/libvirt/libvirt.go:780-799 | some run has rewritten the kubeconfig for the vip and started no apply |
| Executor.JoinAfterReady | pkg/providers/libvirt/libvirt.go:610-692 | every join starts after the prime's polling loop has ended on an answer that lists the prime with Ready True |
| Executor.StepsInOrder | pkg/providers/libvirt/libvirt.go:720-799 | helmfiles apply in list order, each after what earlier steps added |
| Executor.ClusterPrecedesApply | pkg/providers/libvirt/libvirt.go:694-766 | every apply follows every control-plane and agent install |
| Executor.PackagesPrecedeApply | pkg/providers/libvirt/libvirt.go:700-766 | every apply follows the packages of every machine |
| Executor.SetupPrecedesPackages | pkg/providers/libvirt/libvirt.go:417-438 | packages of a machine follow the setup of all machines before it |
| Executor.NextStep | pkg/providers/libvirt/libvirt.go:720-777 | in every run some step is enabled while something is not done |
| Executor.StuckIsComplete | pkg/providers/libvirt/libvirt.go:720-777 | deadlock freedom: a run that cannot continue has completed everything |
| Executor.Completion | pkg/providers/libvirt/libvirt.go:720-777 | every run can be continued to completion of any self-contained part that lacks no prime |
| Executor.CompletesExactly | pkg/providers/libvirt/libvirt.go:600-777 | every run can be continued to completion if and only if there is a prime or nothing connects to one, taking such a command as never finishing |
| Executor.HackEdgeBlocks | pkg/providers/libvirt/libvirt.go:723-725 | were an apply to wait for its hack, no run would start the one or finish the other |
| Executor.ForkedJoinIsUnordered | pkg/providers/libvirt/libvirt.go:597-694 | with the slot overwritten, for every control-plane node or agent some run joins it before the prime is started |
| Executor.KubeConfigUnordered | pkg/providers/libvirt/libvirt.go:635-639 | some run completes everything but the kubeconfig copy |
| Executor.KubeConfigBeforeExactly | pkg/providers/libvirt/libvirt.go:635-766 | the copy precedes an apply in every run if and only if the apply does not exist or waits for a prime that does not |
| Executor.BlockedNeverStarts | pkg/providers/libvirt/libvirt.go:720-766 | an apply behind a command that connects to a missing prime starts in no run |
| Executor.ResetSameRuns | pkg/providers/libvirt/libvirt.go:237-524 | resetting the file list at each machine admits exactly the same runs |
| RemoteCmd.ScanNodes | pkg/cmd/remote/remote.go:373-387 | one answer: ready exactly if it shows this host Ready, and the not-ready observations counted |
| RemoteCmd.ShowsReadyIs | pkg/cmd/remote/remote.go:373-381 | an answer shows a host Ready if it lists a node of that name with condition Ready True |
| RemoteCmd.UnreadyCounts | pkg/cmd/remote/remote.go:376-384 | the not-ready observations of a node are its conditions Ready that are not True |
| RemoteCmd.PollOnce | pkg/cmd/remote/remote.go:353-390 | one turn of the loop keeps both counters meaning what they mean |
| RemoteCmd.PollReady | pkg/cmd/remote/remote.go:351-391 | the loop stops at exactly the first answer showing this host Ready; ncnt is the trailing failures and cnt the not-ready observations since the last failure |
| RemoteCmd.HackService | pkg/cmd/remote/remote.go:42-93 | the loop stops at exactly the first successful update, having counted the attempts |
| RemoteCmd.SplitJoins | pkg/cmd/remote/remote.go:266 | joining the parts gives the string back |
| RemoteCmd.JoinSplits | pkg/cmd/remote/remote.go:266 | splitting what was joined gives the parts back, if none holds a separator |
| RemoteCmd.RenderConfig | pkg/cmd/remote/remote.go:210-278 | the appended config, or a panic exactly for a server's vip without a colon |
| RemoteCmd.ConfigIs | pkg/cmd/remote/remote.go:210-278 | the whole config by role, line by line |
| RemoteCmd.ConfigNamesUpstream | pkg/cmd/remote/remote.go:274-278 | the server line of a config, if not the prime's, reads back as its upstream |
| RemoteCmd.ServerLineNames | pkg/cmd/remote/remote.go:276 | different upstreams have different server lines |
| RemoteCmd.ConfigRoles | pkg/cmd/remote/remote.go:215-278 | the prime joins nobody, others their upstream; only servers list the vip's name and address |
| RemoteCmd.VipRoundTrip | pkg/cmd/remote/remote.go:265-268 | splitting the vip argument recovers both parts if and only if neither holds a colon |
| Cluster.InstallsCoverCluster | pkg/providers/libvirt/libvirt.go:527-692 | in a unit that completes, a machine has an install if and only if it is of a default or agent config |
| Cluster.OneInstallAtMost | pkg/providers/libvirt/libvirt.go:600-692 | no machine has two installs |
| Cluster.InstallsStayInCluster | pkg/providers/libvirt/libvirt.go:600-692 | no other machine has an install, and only the prime install runs on the prime |
| Cluster.OneBootstrap | pkg/cmd/remote/remote.go:210-278 | exactly the prime's config has no server line, every other reads back the prime's address; server configs list the vip, worker configs are their three lines |
| Cluster.JoinOrderedExactly | pkg/providers/libvirt/libvirt.go:597-694 | in every run the prime is done before any given join if and only if the k8s slice kept its contents |
| Cluster.GoJoinOrderedExactly | pkg/providers/libvirt/libvirt.go:597-694 | under Go's policy, that holds unless the cluster is in the table |
| Network.IPDecr | pkg/network/network.go:87 | in place, one less modulo the address space |
| Network.ToNetwork | pkg/network/network.go:55-98 | names kept, a host that asks for no auto address keeps its own, and the k-th that does gets the last address less k, under aliasing |
| Network.AutoTextIs | pkg/network/network.go:69-89 | what that address is, as a number of the space |
| Network.RangeIs | pkg/network/network.go:69 | the range holds exactly the addresses that share its prefix |
| Network.DottedReads | pkg/network/network.go:89 | the four parts of a text are the bytes in order |
| Network.AutoDistinct | pkg/network/network.go:81-89 | auto hosts get different address texts |
| Network.AutoHostsInsideExactly | pkg/network/network.go:69-89 | all auto hosts of a result get addresses strictly inside the range if and only if there are none or at most two fewer than addresses |
| Network.DottedInjective | pkg/network/network.go:89 | different addresses print differently |
| Network.ExpectedAddresses | helmfiles/kube-vip/kube-vip.yaml:98-99 | an illustration: for 10.200.200.1/24 the first auto hosts get .254 and .253 |
| FileCache.NextKeepsInv | pkg/filecache/filecache.go:62-141 | every step of any client keeps the cache valid and downloads owned |
| FileCache.RunKeepsInv | pkg/filecache/filecache.go:73-141 | in every interleaving, with crashes and clean-ups, every cached file hashes to its name |
| FileCache.RunKeepsFiles | pkg/filecache/filecache.go:83-131 | a cached name stays, and its bytes too if the hash is injective |
| FileCache.NilWithoutFile | pkg/filecache/filecache.go:126-140 | a run in which a nil return leaves no file |
| FileCache.NilMeansThere | pkg/filecache/filecache.go:83-140 | a nil return without a failed rename means that the file is there |
| FileCache.CacheDir.CacheInput | pkg/filecache/filecache.go:73-141 | the outcome from what is given before the call: there, error, exit with the download removed, or published with exactly the bytes delivered; and when a nil return leaves the file there |
| FileCache.JoinedConcat | pkg/filecache/filecache.go:109-119 | the bytes delivered are the chunks in order |
| FileCache.CacheDir.Attempt | pkg/filecache/filecache.go:83-140 | what the call returns once its destination is known, others acting between its steps |
| FileCache.CacheDir.Look | pkg/filecache/filecache.go:83-93 | a file that is there is seen, one that is not and is not published meanwhile is missing; the process dies of a failed look |
| FileCache.CacheDir.Fill | pkg/filecache/filecache.go:95-119 | exactly when a download is filled, and how the call or its process ends otherwise |
| FileCache.CacheDir.Download | pkg/filecache/filecache.go:109-119 | the file holds the chunks in order whatever others do, and when it still has its name |
| FileCache.CacheDir.HashDownload | pkg/filecache/filecache.go:121-139 | a download is right if and only if it has its name and hashes to the sum; otherwise error, or exit with the name removed |
| FileCache.CacheDir.Publish | pkg/filecache/filecache.go:126-131 | looking again and renaming, and when the rename works |
| Universe.StillThereLater | pkg/universe/universe.go:137-144 | what one call cached is there after later calls |
| Universe.CacheInputs | pkg/universe/universe.go:137-144 | one logged call for each input in order up to the first that fails; stopped exactly if one fails; all done if every input is there or is delivered without failure or clean-up |
| Universe.SourcesPresent | pkg/providers/libvirt/libvirt.go:252-261 | every link and copy source is present and hash-valid at any later time |

## Left out

- UnitBuilder.BuildUnit: the early return it has is that of a failed link; after any other error, too, what is registered is a prefix.
- Images.Directory: where an image goes is a function of the config's name, given as a parameter with what else can make a link fail.
- UnitBuilder.Builder.Build: keeps Go's arrays in one memory by address and so does not use Dafny's own heap for them; stale cells beyond a slice's length hold an arbitrary resource.
- Network.ToNetwork: covers IPv4 text only, because the repository assumes it; parsing of the range is a parameter.
- Network.IPDecr: the library's own code is not part of this model.
- FileCache.CacheDir.Publish: the second stat sees the file or does not; the code takes any other error for a file that is there.
- Universe.CacheInputs: an input with an empty sum is taken as cached, since its path is the directory; `Universe.SourcesPresent` speaks of other sums only.
- Names with a random part: taken as fresh; resources are told apart by position, and `ResourceNames` treats the names without one.
- Outcome of commands: resources finish or have yet to; a command that fails stops the engine and is not modelled.
- The shadowed kubeconfig path at pkg/providers/libvirt/libvirt.go:780, and every other path and shell text.
- Units that name others in After, which the program never builds.
- The lines of the config that are commented out or unused, and the sysctl, install and systemd steps around it.
- Component resources, exports, ssh keys, shared pools and networks: straight-line resource creation.
- pkg/cloudinit, pkg/ssh, pkg/system, pkg/vm, pkg/unit, pkg/cache, pkg/lib: constant records, conversions and I/O.
