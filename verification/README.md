# lxdk in Dafny

lxdk launches Kubernetes clusters on LXD. Its commands (`create`, `start`,
`stop`, `start-worker`, `delete`) act on two stores that have to agree: what
LXD holds (instances with their file trees, networks, storage pools, profiles)
and what lxdk keeps per cluster in its cache directory (the record
`state.toml`, certificates, kubeconfigs). Every command is a sequence of calls,
any of which can fail and end the command midway.

This project models both stores and the commands, and proves what every run of
commands on any number of clusters keeps, whatever fails on the way.

## How it is built

- `Server` and `Cache` (`Lxd.dfy`) are the two stores as mutable objects. A
  request to LXD may be lost, or its reply may be; otherwise LXD answers as its
  state says. Local writes and processes may fail. All of these are counted as
  faults, so that the contracts can say what happens when there are none. What
  LXD reports about addresses and drivers is arbitrary; every request for
  addresses is kept with its answer.
- The commands are methods over these objects (`Creating.dfy`, `Commands.dfy`,
  `Startup.dfy`, `ControlPlane.dfy`, `Workers.dfy`, `Provision.dfy`,
  `Containers.dfy`, `Certificates.dfy`, `Upload.dfy`), with the loops, branches
  and order of lxdk's own functions.
- `Steps.dfy` says as a relation between worlds what each command may do, where
  it may stop, and what it has achieved when it succeeds. Every command method
  is proved to keep to its relation.
- `Isolation.dfy`, `Runs.dfy`, `Guards.dfy`, `Closure.dfy`, `Orphans.dfy`,
  `Deletes.dfy`, `Units.dfy` and `RoundTrip.dfy` prove the theorems about runs. `Runs.Session`
  shows that commands carried out one after the other make a run.
  `Witnesses.dfy` and `RunningWitnesses.dfy`, with the file trees of
  `Layouts.dfy`, give for every cluster name runs that reach the failures the
  theorems speak of, among them runs past a start that succeeds.
- `Worlds.dfy` has the entities, and what a service needs when it is started;
  `Credentials.dfy` and `Packs.dfy` have what certificates and kubeconfigs say,
  `Rooms.dfy` the directories lxdk pushes into; `Names.dfy`, `Paths.dfy`,
  `Trees.dfy`, `Addresses.dfy`, `Blkid.dfy`, `Slices.dfy`, `Text.dfy` and
  `Wrappers.dfy` hold the strings, trees and slices underneath.

An outcome is `Done`, `Refused` (a check failed and nothing was changed),
`Missing(file)` (a local file to be read is not there) or `Failed`. A panic
counts as `Failed`. "Partway" means not `Done`, with something changed. "Without
faults" means that no message to or from LXD was lost, and no local file
operation, process or step with the Kubernetes API failed.

Many predicates are wrapped in a quantifier over one value
(`forall x | x == c :: ...`). It changes nothing about what they say, but keeps
the solver from unfolding them where they need not be.

## What turned out to be false, and exactly when

- A delete cannot always be completed. In every run, without lost messages and
  failed writes it succeeds exactly if every recorded container exists, none is
  recorded twice, and no instance but those is in the pool or the network that
  is to go; pool and network themselves are then there (`Commands.DoDelete`,
  `Deletes.DeletableExactly`). If no delete of the cluster has failed partway,
  it succeeds exactly if no other instance is in the way
  (`Deletes.DeletableUnlessHeld`). So there are two causes:
  - A delete of the cluster failed after it got rid of a container: a retry
    stops at that container, which no longer exists. Such a delete is never
    completed, whatever the record says, with one exception: the record says
    running, the container was a worker, and a start-worker has since made a
    container of the very same name and then failed
    (`Deletes.FailedDeleteIsFinal`, `RunningWitnesses.FailedDeleteIsCompleted`).
    If the record did not say running no command on the cluster ever succeeds
    again (`Deletes.FailedDeleteIsDeadEnd`), and this is a second way to where
    neither start nor stop passes its checks (`Guards.WhereBothGuardsRefuse`,
    `Witnesses.FailedDeleteStrands`), besides a start from Stopped that failed
    partway (`RunningWitnesses.FailedRestartStrands`).
  - Something the record does not list is in the pool or the network. A
    container with a name of the cluster's gets there only by a create or a
    start-worker that failed, or was there from the start
    (`Orphans.WhereOrphansComeFrom`): by a start-worker that failed after it
    made its container (`Orphans.FailedWorkerStrands`,
    `RunningWitnesses.FailedWorkerLeavesUndeletable`), or by a create that failed
    and whose network or pool a later one was given (`Witnesses.OrphanStrands`).
    No command ever touches such a container, so it blocks delete for good
    (`Orphans.OrphanBlocksDelete`). All other instances in the pool or the
    network, of other clusters or not lxdk's at all, block delete while they
    are there.
- A create that fails after it made a container leaves no clean slate. If it was
  to make its own network, that network stays, and as long as creates of that
  name are to make their own network no command on it succeeds
  (`Orphans.FailedCreateBurnsName`). If it failed writing the record it may leave
  an empty directory, and then no command on that name ever succeeds again
  (`Guards.EmptyDirectoryIsFinal`, `Witnesses.EmptyDirectoryIsLeft`).
- Not every variable the units expand is bound. `ETCD_IP` is whenever a unit
  expands it; `CONTAINER_NAME` in etcd's unit and `ADMISSION_PLUGINS` in the
  API server's never are. So exactly these two services are started with a
  variable unbound (`Units.VariablesBound`, `RunningWitnesses.StartSucceeds`).
- A node's registry configuration never names the registry by its address and
  port: what it writes between the two (kubernetes/configs.go:15-20) is left
  over from a shell script (`Workers.RegistriesTell`).
- With a remote without a host name (a snap's local remote,
  `lxd/lxd.go:43-49`) the empty string is in the list of addresses to ignore
  and shuts out every address, so no start ever succeeds
  (`Closure.NoHostNeverRuns`).
- A `RecursiveMkdir` that fails without transport errors can leave directories
  behind if the path holds `..`. It leaves the tree as it was exactly if
  everything up to the first obstacle exists, which paths without `..` always meet
  (`Upload.FailedMkdirExactly`). On `x/../f`, where `f` is a file, every such
  run fails and leaves `x` (`Upload.DotDotLeavesDirectory`).
- `GetDeviceByUUID` reports malformed output for a device whose printed record
  is a single line, unless it is the last one (`Blkid.SearchFailsExactly`).
- A network or pool that was given to create but has "lxdk" in its name is
  deleted by delete, so the round trip restores it exactly if it has not
  (`RoundTrip.CreateToDeleteRestores`, `Witnesses.GivenPoolIsLost`).
- The "etcd" check on container names holds for every container of a cluster
  whose name contains "etcd", and for an id that happens to
  (`Names.EtcdTest`).

## Assumptions

- LXD refuses to create what exists, to change a missing instance, to delete a
  running instance, and to delete a network or pool in use. An accepted stop
  ends with the instance stopped (containers/containers.go:164-167). An
  accepted delete completes (containers/containers.go:182-183). An instance
  whose creation succeeds has the file tree of the image with that alias. An
  image's tree may be any in which every node's directory exists that has room
  for what lxdk pushes (nothing but directories on the way, no directory where
  a file is to go) and holds what packer puts into the image of that alias:
  the etcd unit in kubedee-etcd; the units of crio, the kubelet, kube-proxy and
  the registry, kube-scheduler.yaml and the registry's config.yml in
  kubedee-worker and kubedee-controller; the units of the API server, the
  controller manager and the scheduler in kubedee-controller
  (packer/build.pkr.hcl:92-182). Images do not change during a run.
- Creating a directory over something else is refused, over a directory it
  leaves that as it is. There are no symbolic links on the paths pushed to.
  Processes in the containers do not remove the files lxdk pushes.
- A record is written as a whole or not at all, though its directory is made
  first and may be left empty (config/clusterstate.go:60-70). A failing removal
  of a cache directory may leave any part of it.
- Cluster names are single path components of ASCII characters without
  newlines; the cache path is absolute. Nothing but lxdk changes the two
  stores between and during commands, and commands are carried out one at a
  time.
- A cfssl or kubectl process that fails may have written some of its files, a
  successful one has written all of them. A certificate says its common name,
  its organization, its hosts, the certificate of who issued it and the key it
  belongs to; without an override the common name and the name given to cfssl
  are its subject. kubectl needs the kubeconfigs directory, keeps what earlier
  runs entered into a kubeconfig, and embeds the bytes of the files it is given.
- Whether start's clients reach the API server, and whether a command other
  than "systemctl start" does what it says, is not looked into.
- `net.ParseIP` accepts dotted decimal and the forms of section 2.2 of RFC
  4291. `blkid -o export` prints per device a DEVNAME line, further lines and
  a blank line between devices.
- The comment on `UploadFile` calls its target a directory; when bytes are given
  the code takes it for the target file, and so does the model
  (containers/containers.go:249-289).
- An error of `GetInstanceFile` means to the code that nothing is there, as it
  does not look at the error (containers/containers.go:326-332).

## Model

| member | source | states |
|---|---|---|
| Names.ParseUndoesName | containers/containers.go:69 | a reader from right to left gets cluster, image and id back from a printed container name, whatever hyphens the cluster name holds |
| Names.NameUndoesParse | containers/containers.go:69 | a name that can be read is the name printed from what was read |
| Names.ReadableNames | containers/containers.go:69 | a name belongs to a cluster if and only if it reads back to that cluster |
| Names.NamesInjective | containers/containers.go:69 | different (cluster, image, id) never share a container name |
| Names.OneOwner | containers/containers.go:69 | a container name belongs to one cluster in one role only |
| Names.ContainsInName | containers/containers.go:77 | a hyphen-free needle occurs in a container name if and only if it occurs in one of its parts |
| Names.EtcdTest | containers/containers.go:77 | the "etcd" check holds if and only if the image is etcd or the cluster name or the id contains "etcd" |
| Names.ControllerTest | cmd/lxdk/start.go:521 | the "controller" check holds if and only if the image is controller or the cluster name contains "controller"; it never depends on the id |
| Names.CertificatesNeverCollide | cmd/lxdk/start.go:383-386 | within a cluster no two containers' certificate, key or request files have the same name, and none has the name of a fixed certificate's |
| Names.PairsApart | cmd/lxdk/start.go:546-547 | a node's two certificate files differ from each other and from those of every other container of the cluster |
| Text.LowerHasNoUpper | cmd/lxdk/start.go:383-386 | a lower-cased name has no capital letter, every other character is as it was, and lower-casing it again changes nothing |
| Paths.CleanLocates | containers/containers.go:272 | cleaning a path does not change which node of the tree it names |
| Paths.JoinLocates | containers/containers.go:272 | joining a directory and a base name names the child of that directory |
| Upload.RecursiveMkdir | containers/containers.go:309-341 | refines making all missing ancestors component by component, for doubled and trailing slashes too; without transport errors it succeeds if and only if nothing but directories is in the way; it ends for every path and never asks for a directory whose parent is missing |
| Upload.MadeMeans | containers/containers.go:309-341 | after a success every prefix is a directory, only missing prefixes were added, everything else is unchanged, the tree is parent-closed, and a second success changes nothing |
| Upload.FailedMkdirUnchanged | containers/containers.go:318-340 | without transport errors a failure on a path without ".." leaves the remote tree as it was |
| Upload.FailedMkdirExactly | containers/containers.go:318-340 | for every path, a failure without transport errors leaves the tree as it was if and only if every prefix before the first obstacle exists |
| Upload.DotDotLeavesDirectory | containers/containers.go:318-340 | on the path /x/../f, where f is a file and the only one, every call without transport errors fails with "not a directory" and leaves the new directory x behind |
| Upload.UploadFile | containers/containers.go:250-307 | makes the target's directory and writes the given bytes or those of the local file to the target; a missing local file is reported before anything is changed |
| Upload.UploadFiles | containers/containers.go:343-351 | uploads the files in order up to the first that fails; no file or directory goes away, and a success has uploaded every file |
| Upload.UploadedFilesHold | containers/containers.go:343-351 | for sources with distinct base names each target holds its own source's bytes below existing directories, and every other remote file is unchanged |
| Addresses.ChooseAddress | containers/containers.go:211-246 | for every order of the devices: success only with an IPv4 address that passes all filters, "no IP address" if and only if none passes, "not a valid ip" only for a passing text that does not parse |
| Addresses.IPv6HasTwoColons | containers/containers.go:230 | every text form of section 2.2 of RFC 4291 holds at least two colons, so the colon filter shuts out all of IPv6 |
| Addresses.EmptyBlacklistsAll | containers/containers.go:224-229 | an empty entry in the list of addresses to ignore shuts out every address |
| Containers.GetContainerLXDIP | containers/containers.go:205-247 | asks LXD once; an answer passes every filter, is IPv4 and was among the addresses reported to that request; there is none only if the request got no answer, or one that offers nothing or a text that is no address |
| Containers.WaitContainerIP | containers/containers.go:188-201 | asks LXD for this container's addresses again and again, 51 times at most, stops at the first request answered with an address to be used and returns that, and gives up only after 51 requests none of which was; never succeeds if the empty string is to be ignored |
| Blkid.SearchUndoesPrint | lxd/lxd.go:91-105 | for any list of printed records and any newline-free uuid the search gives the DEVNAME of the first record that mentions it, if that record has a second line or is the last |
| Blkid.SearchFailsExactly | lxd/lxd.go:91-107 | the search fails if and only if no record mentions the uuid or the first that does is a single line and not the last |
| Slices.Append | cmd/lxdk/start.go:133-134 | appending to a slice that may share its array leaves the elements of the slice appended to as they were, with or without spare capacity |
| Certificates.CreateCert | certificates/certificates.go:135-218 | reads the authority's pair and the signing configuration, writes the pair and request under the file name or, without one, the name, and no other file; the certificate says the subject and hosts asked for, is issued by that authority and belongs to the key beside it; without faults it succeeds unless a file is missing |
| Certificates.CreateCerts | cmd/lxdk/create.go:162-278 | never misses a file it wrote itself; a success leaves every file later commands read from create, three authorities with their own common names, and five client certificates, each with its own subject and issued by its own authority; without faults it succeeds |
| Credentials.CertTells | certificates/certificates.go:183-218 | a file that holds one certificate does not hold another: subject, hosts, issuer and key can be told from it |
| Certificates.MakeKubeconfig | cmd/lxdk/start.go:650-696 | writes only the kubeconfig; on success that names this server and user and embeds the authority's certificate and the pair of this name as they are now; misses a file only if one of those three or the directory is not there |
| Certificates.ServerTells | cmd/lxdk/start.go:651-659 | a server's address is https, the host, and port 6443, so the host can be told from it |
| Credentials.ConfigReadsBack | cmd/lxdk/start.go:661-692 | what one kubectl run printed into a kubeconfig the next one reads back |
| Certificates.CreateControllerKubeconfig | cmd/lxdk/start.go:409-503 | the controller manager's kubeconfig holds the controller manager's pair and names the address asked for just now, the scheduler's the scheduler's pair and the address start found; misses a file only if one of the two users' files is not there |
| Certificates.CreateWorkerKubeconfig | cmd/lxdk/start.go:646-746 | kube-proxy.kubeconfig holds kube-proxy's pair, the node's kubelet kubeconfig the node's own, both naming the controller's address |
| Certificates.MakeUserKubeconfigs | cmd/lxdk/start.go:749-857 | both users' kubeconfigs hold the administrator's pair, one naming the controller and one the address chosen for clients |
| Containers.CreateId | containers/containers.go:382-391 | five characters of a to z and 0 to 9 |
| Containers.CreateContainer | containers/containers.go:64-133 | a success adds one stopped instance with a fresh name of cluster and image, the pool, the network and no devices, made from an image that brings what the services of its role need; a failure adds at most such an instance, without faults none; without faults and collisions of names it succeeds if network, pool, profile and image are there |
| Containers.SourceNames | containers/containers.go:72-85 | the alias of each of the four images: its own, and the worker's for a registry |
| Containers.SourceBrings | packer/build.pkr.hcl:92-182 | whichever of the four roles a container is made for, the image of its alias brings the units and configuration files of the services that role runs |
| Containers.ProfilesByRole | containers/containers.go:77-81 | a container gets no profile if it is etcd's or cluster name or id contain "etcd", and exactly the profile lxdk otherwise |
| Containers.StopContainer | containers/containers.go:154-170 | stops this instance and nothing else; fails only for a missing instance or a lost message |
| Containers.DeleteContainer | containers/containers.go:172-186 | deletes this instance and nothing else; a failure may leave it stopped |
| Containers.RunCommands | containers/containers.go:371-380 | issues the commands in order up to the first that fails; without faults none does |
| Provision.PushSecrets | cmd/lxdk/start.go:191-217 | on success every listed certificate and kubeconfig is in /etc/kubernetes/ of the container with the bytes it has in the cache, and nothing of another name changed |
| Workers.CreateWorkerCert | cmd/lxdk/start.go:378-401 | a certificate saved under the lower-cased container name, for the node's user and group, an address reported for the container and its name, issued by the cluster's authority; no other certificate touched; without faults it succeeds unless a file is missing or 51 requests for the address were in vain |
| Workers.WorkerCertsApart | cmd/lxdk/start.go:378-401 | issuing one container's certificate overwrites no other container's and no fixed certificate |
| Workers.AttachDevices | cmd/lxdk/start.go:562-596 | adds the loop devices among the entries of /dev under their own names and the tunnel device, and leaves all other devices as they were |
| Workers.ConfigureWorker | cmd/lxdk/start.go:518-644 | on success the node holds its environment file, certificates and kubeconfigs with the bytes they have in the cache, its kubeconfigs are its own and kube-proxy's and name the API server's address, and its devices are attached; of crio, the kubelet and kube-proxy it starts all three or none, and none only if a settings upload met a fault; they are started only once the settings name the registry and everything the services need is in place; misses a local file only if one the node needs is not there; without faults it succeeds and starts all three unless a file is missing |
| Workers.RegistriesTell | kubernetes/configs.go:6-20 | the places of a node's registry configuration that name the registry are its container's name at port 5000, three times, and its address followed by `:-127.0.0.1}:5000`, twice; so none is the address at port 5000 |
| Workers.KubeletTells | kubernetes/configs.go:24-73 | the kubelet's configuration names the authority's certificate and the node's own pair, its unit the configuration and the node's own kubeconfig |
| Provision.EnvKeepsEtcd | cmd/lxdk/start.go:521-527 | the environment file written second on a controller still holds the first one's ETCD_IP line, after the container's name, whatever the cluster is called |
| Provision.EnvNamesNode | cmd/lxdk/start.go:523-527 | the environment file of every other node binds its own lower-cased name and nothing else, unless the cluster name contains "controller" |
| ControlPlane.IssueStartCerts | cmd/lxdk/start.go:83-139 | the etcd, kubernetes and node certificates, each for its own name, hosts with addresses reported for its container, and issued by its own authority, none overwriting another; misses a file only if create left one out; never succeeds with an empty host name; without faults it succeeds unless a file is missing or an address was never reported |
| ControlPlane.ConfigureEtcd | cmd/lxdk/start.go:141-164 | on success the environment file holds the address and etcd was started, after everything it needs was there; without faults it succeeds |
| ControlPlane.ConfigureController | cmd/lxdk/start.go:176-231 | on success the API server, controller manager and scheduler were started, each after everything it needs was there, and the last two with kubeconfigs that name the API server by an address reported for the controller and by the one given |
| Startup.Expose | cmd/lxdk/start.go:233-279 | attaches to the controller, besides what it has, exactly the device of a btrfs pool that is not the cluster's own: its source if that is a path, else what blkid tells for it; without faults it succeeds if the pool is there and that device is found |
| Startup.ConfigureNodes | cmd/lxdk/start.go:286-299 | on success every worker and the controller holds its certificates and kubeconfigs, and the node visited last its environment file; of every node's three services all were started or none, without faults all, each after the node had been told the registry's, etcd's and the API server's addresses |
| Startup.ProvisionCluster | cmd/lxdk/start.go:83-366 | changes nothing but files and devices of the cluster's containers and files of its directory, removes none, and on success has set up every node, started every service of the control plane, and told nodes, controller and users only addresses reported for the containers they are said to be of |
| Creating.CreateContainers | cmd/lxdk/create.go:292-319 | one container each of etcd, controller and registry and the asked number of workers, all new, each made from the image of its role; a failure leaves the containers made before it; with less than one worker nothing is made; without faults and collisions it succeeds if everything they are made of is there |
| Creating.ListAll | cmd/lxdk/create.go:133-137 | the list holds every container exactly once for every order of the roles |
| Creating.DistinctAnyOrder | cmd/lxdk/create.go:133-137 | listing the roles in another order repeats no name |
| Creating.DoCreate | cmd/lxdk/create.go:48-150 | keeps to Steps.CreateStep: refuses an existing cluster, touches no old instance, records exactly the containers it made, writes the record before the certificates, and says what each failure leaves behind; no network or pool that an instance uses goes; without faults and collisions of names it succeeds if and only if its own names are free or the given ones there, the profile lxdk or default and the images are there and a worker was asked for, and a failure leaves exactly the networks and pools its rollback is to leave |
| Commands.DoStart | cmd/lxdk/start.go:41-376 | keeps to Steps.StartStep: changes nothing unless its checks pass, starts only recorded containers, records Running exactly on success, with the worker list it read although the controller was appended to a slice of it; once the checks pass all recorded containers run unless there were faults, and with create's files there and the pool's device found it succeeds without faults unless 51 requests for some address were in vain; on success nodes, controller and users know addresses reported for the containers they are said to be of, and without faults every node's services were started |
| Commands.ProvisionNodes | cmd/lxdk/start.go:132-139 | the nodes visited are exactly the workers and the controller, and the list of workers stays as it was read |
| Commands.DoStop | cmd/lxdk/stop.go:20-48 | keeps to Steps.StopStep; if the record does not say stopped and the containers exist, only a lost message or a failed write keeps it from succeeding |
| Commands.DoStartWorker | cmd/lxdk/startworker.go:19-96 | keeps to Steps.StartWorkerStep: adds one new worker, records it in both lists exactly on success, and otherwise may leave it behind unrecorded; without faults and collisions it succeeds if the record says running, the files of a start are there and the worker can be made, unless 51 requests for some address were in vain; on success the worker was told addresses reported for registry, etcd and controller, and without faults its three services were started |
| Commands.DoDelete | cmd/lxdk/delete.go:35-82 | keeps to Steps.DeleteStep: containers, then pool, then network, then directory; success implies Steps.Deletable (the recorded containers existed, none was recorded twice, pool and network to go were there and held by no other instance), and if that holds only a lost message or a failed removal keeps it from succeeding |
| Isolation.OthersUntouched | cmd/lxdk/delete.go:102-111 | a command on one cluster leaves the directory and every instance named for another cluster as they were |
| Isolation.RecordedDisjoint | cmd/lxdk/start.go:74-81 | the containers recorded for two clusters are disjoint, whether they still exist or not |
| Runs.Session | config/clusterstate.go:37-79 | commands carried out one after the other make a run; each leaves records that meet what the next one needs |
| Runs.RolePartition | cmd/lxdk/startworker.go:89-91 | in every run every record's list of containers is, as a multiset, etcd, controller, registry and workers, with at least one worker and names of the right roles |
| Runs.ClustersAreIsolated | cmd/lxdk/delete.go:102-111 | in every run, with commands failing at any call, no command on one cluster starts, stops, changes or deletes an instance recorded for another |
| Runs.ServicesStartReady | packer/templates/kube-apiserver.service.pkrtpl.hcl:5-37 | in every run, whenever a service is started, its unit and every file that names, or a configuration file named there (kubelet.yaml, kube-scheduler.yaml) does, is in that container, under the same lower-cased name; the environment file of etcd and the API server holds an etcd address; and what it identifies itself with is its own: etcd's, the API server's and the node's certificate have their own subject and are issued by the authority whose certificate lies beside them, for the key beside them, and every kubeconfig holds its own user with a certificate of that user, issued by the authority it trusts |
| Units.VariablesBound | packer/templates/etcd.service.pkrtpl.hcl:5-21 | in every run, whenever a service is started, ETCD_IP is the one variable its unit expands that its environment file binds; so all are bound if and only if the service is neither etcd nor the API server |
| Guards.RecordedRunningRuns | cmd/lxdk/start.go:74-81 | unless a stop or delete of the cluster failed partway, recorded Running implies that every recorded container runs |
| Guards.RecordedStoppedRests | cmd/lxdk/stop.go:36-45 | unless a start from Stopped failed partway, recorded Stopped implies that no recorded container runs |
| Guards.RecordedContainersExist | cmd/lxdk/startworker.go:89-91 | unless a delete of the cluster failed partway, the recorded containers exist and their names are pairwise distinct |
| Guards.WhereBothGuardsRefuse | cmd/lxdk/stop.go:27-29 | neither start nor stop passes its checks if and only if the record says Stopped and a recorded container runs or is gone; the first arises only from a start that failed partway from Stopped, the second only from a delete that failed partway |
| Guards.OnlyDeleteHelps | cmd/lxdk/start.go:54-72 | in every run, from where neither passes until a delete of the cluster, neither ever passes, and no other command on the cluster succeeds or changes anything |
| Guards.FirstStartRecovers | cmd/lxdk/stop.go:36-45 | after a start that failed partway from Uninitialized, right then and at every later time until a delete fails partway, nothing but a lost message or failed write keeps stop from succeeding while the record does not say Stopped, and after every successful stop start's checks pass |
| Guards.DeadEndsStay | containers/containers.go:172-176 | once a recorded container is gone while the record does not say Running, or the record is gone while the directory is not, no command on the cluster ever succeeds again |
| Guards.EmptyDirectoryIsFinal | config/clusterstate.go:60-70 | after a create that failed writing its record and left an empty directory no command on the name ever succeeds |
| Deletes.MissingBlocks | cmd/lxdk/delete.go:102-111 | in every run, as long as a recorded container is gone, no command on the cluster succeeds but start-worker, and that only if the record says running |
| Deletes.FailedDeleteIsFinal | cmd/lxdk/delete.go:54-79 | a delete that failed and got rid of a container is completed later only if that was a worker, the record said running, and in between a start-worker made a container of that very name and failed |
| Deletes.FailedDeleteIsDeadEnd | cmd/lxdk/delete.go:54-79 | if the record did not say running no command on the cluster succeeds after such a delete |
| Deletes.DeletableExactly | cmd/lxdk/delete.go:54-79 | in every run the condition under which only faults keep delete from succeeding holds if and only if the recorded containers exist, their names are distinct, and no other instance is in the pool or network to go |
| Deletes.DeletableUnlessHeld | cmd/lxdk/delete.go:54-79 | while no delete of the cluster has failed partway it holds if and only if no other instance is in the pool or network to go |
| Closure.StartFindsItsFiles | cmd/lxdk/start.go:83-217 | after a successful create no start reads a local file that no earlier step wrote, as long as no delete of the cluster changed anything |
| Closure.StartWorkerFindsItsFiles | cmd/lxdk/startworker.go:32-87 | start-worker reads no local file that no earlier step wrote, unless a delete failed partway: recorded Running means that a whole start went before |
| Closure.StartKeepsEtcdAddress | cmd/lxdk/start.go:153-186 | after a successful start the controller's environment file, written twice, binds its name and the very address that etcd's own file binds |
| Closure.NoHostNeverRuns | lxd/lxd.go:43-49 | if connecting never reports a host name no cluster is ever recorded as running |
| RoundTrip.LeavesNothingBehind | cmd/lxdk/delete.go:54-79 | from create to delete, all commands on the cluster succeeding and those on others doing anything: instances with its names, its directory, its own network and pool are afterwards as before |
| RoundTrip.CreateToDeleteRestores | cmd/lxdk/create.go:76-142 | with nothing else going on LXD's instances and the cache are exactly as before create, and so are networks and pools if and only if the one given, if any, has no "lxdk" in its name |
| Orphans.OrphanStays | cmd/lxdk/delete.go:102-111 | in every run a container that has a name of the cluster's but is in no record stays exactly as it is, whatever commands come |
| Orphans.OrphanBlocksDelete | cmd/lxdk/delete.go:62-74 | no later delete that is to take along the pool or the network such a container uses ever succeeds |
| Orphans.FailedWorkerStrands | cmd/lxdk/startworker.go:48-93 | a start-worker that failed after it changed something keeps every later delete of the recorded pool or network from succeeding, though every recorded container exists |
| Orphans.WhereOrphansComeFrom | cmd/lxdk/startworker.go:48-93 | in every run an unrecorded container with a name of the cluster's that was not there at some time was left behind since by a create or a start-worker of the cluster that failed |
| Orphans.FailedCreateBurnsName | cmd/lxdk/create.go:113-127 | after a create with a network of its own failed with a container made, no command on the name succeeds as long as creates make their own network, and the network stays |
| Witnesses.FailedDeleteStrands | cmd/lxdk/delete.go:54-59 | for every cluster name a run of create, stop and a failing delete after which a recorded container is gone, none runs, and neither start nor stop passes its checks |
| Witnesses.OrphanStrands | cmd/lxdk/create.go:113-127 | for every cluster name a run after which all recorded containers exist and delete cannot succeed |
| Witnesses.GivenPoolIsLost | cmd/lxdk/delete.go:62-67 | for every given pool with "lxdk" in its name a lifetime of create and delete that loses it |
| Witnesses.EmptyDirectoryIsLeft | config/clusterstate.go:60-70 | for every cluster name a run in which create leaves a directory without a record |
| RunningWitnesses.StartSucceeds | cmd/lxdk/start.go:41-376 | for every cluster name a run of create and start, both succeeding, after which all containers run, the record says running, and etcd and the API server have been started without CONTAINER_NAME and ADMISSION_PLUGINS |
| RunningWitnesses.FailedWorkerLeavesUndeletable | cmd/lxdk/startworker.go:48-93 | for every cluster name a run of create, start and a failing start-worker after which all recorded containers exist and delete cannot succeed |
| RunningWitnesses.FailedRestartStrands | cmd/lxdk/start.go:74-81 | for every cluster name a run of create, start, stop and a failing start after which a container runs, the record says Stopped, and neither start nor stop passes its checks |
| RunningWitnesses.FailedDeleteIsCompleted | cmd/lxdk/delete.go:54-79 | for every cluster name a run in which a failed delete is completed, after a start-worker that made the lost worker's name again and failed |

## Left out

- Startup.ProvisionCluster: with faults a success does not promise that the kubelet runs on every node, because configureWorker reports no error when one of three uploads fails (cmd/lxdk/start.go:614-628).
- Creating.DoCreate: no clean rollback is promised, because createContainers forgets the containers made before a failure and the rollback deletes the network without asking who made it (cmd/lxdk/create.go:115-127); the profile "lxdk" stays in any case.
- Workers.ConfigureWorker: the directories and links its commands make in the container are not modelled.
- Containers.RunCommands: commands other than "systemctl start" are not told apart; that includes daemon-reload, enable, mkdir, ln and the labels.
- Containers.CreateContainer: network and pool of the container are kept, not how its two devices spell them, nor the raw.lxc setting of etcd's.
- Certificates.CreateCert: keys, validity, key usage and the encoding of certificates and kubeconfigs; no signature is computed.
- Containers.CreateId: every id can come up; nothing is said about how likely it is.
- Addresses.IPv4Text: any number of leading zeros is accepted, as in the Go version the module names (1.16); later ones refuse them.
- Owners and modes of remote files; RecursiveMkdir passes the user id as the group id (containers/containers.go:337).
- The texts of units, kubelet configuration and registry configuration beyond the files, names, variables and addresses in them.
- Signature checks (cmd/lxdk/debugcert.go), cfssl, kubectl and systemctl as processes.
- Kubernetes API calls, RBAC, waiting for nodes, the flannel and CoreDNS manifests: one step that may fail.
- Connecting to LXD, snap detection, environment variables, command line flags, logging and the printing commands; the flag use-remote-ip may be given or not at every start.
- TOML encoding and sleeps; what /dev and blkid list does not change.
