/** Creating, starting, stopping and deleting one container, finding its address, running commands in it. */
module Containers {
  import opened Text
  import opened Paths
  import opened Trees
  import opened Rooms
  import opened Names
  import opened Wrappers
  import opened Worlds
  import opened Addresses
  import opened Lxd

  const ID_CHARS := "abcdefghijklmnopqrstuvwxyz0123456789"

  lemma IdChars(k: nat)
    requires k < |ID_CHARS|
    ensures IdChar(ID_CHARS[k])
  {
  }

  /** createID */
  method CreateId() returns (id: string)
    ensures IsId(id)
  {
    var b := new char[5](_ => 'a');
    for i := 0 to 5
      invariant forall j | 0 <= j < i :: IdChar(b[j])
    {
      var k: nat :| k < |ID_CHARS|;
      IdChars(k);
      b[i] := ID_CHARS[k];
    }
    id := b[..];
  }

  /** The alias of the image a container is made from. */
  function SourceOf(image: Image): string {
    if image == Registry then "kubedee-worker" else "kubedee-" + image.Text()
  }

  /** Which alias each of the four is. */
  lemma SourceNames()
    ensures SourceOf(Etcd) == "kubedee-etcd" && SourceOf(Controller) == "kubedee-controller"
    ensures SourceOf(Worker) == "kubedee-worker" && SourceOf(Registry) == "kubedee-worker"
  {
    assert "kubedee-" + "etcd" == "kubedee-etcd" && "kubedee-" + "controller" == "kubedee-controller";
    assert "kubedee-" + "worker" == "kubedee-worker";
  }

  lemma NodeImageFiles()
    ensures UnitPath(Crio) in NODE_FILES && UnitPath(KubeProxy) in NODE_FILES && UnitPath(RegistryService) in NODE_FILES
    ensures SCHEDULER_CONFIG in NODE_FILES && REGISTRY_CONFIG in NODE_FILES
  {
    assert NODE_FILES[0] == UnitPath(Crio) && NODE_FILES[2] == UnitPath(KubeProxy) && NODE_FILES[3] == UnitPath(RegistryService);
    assert NODE_FILES[4] == SCHEDULER_CONFIG && NODE_FILES[5] == REGISTRY_CONFIG;
  }

  lemma ManagerImageFiles()
    ensures UnitPath(ApiServer) in MANAGER_FILES && UnitPath(ControllerManager) in MANAGER_FILES && UnitPath(Scheduler) in MANAGER_FILES
  {
    assert MANAGER_FILES[0] == UnitPath(ApiServer) && MANAGER_FILES[1] == UnitPath(ControllerManager);
    assert MANAGER_FILES[2] == UnitPath(Scheduler);
  }

  lemma AliasesDiffer()
    ensures AliasFiles("kubedee-etcd") == [UnitPath(EtcdService)] && AliasFiles("kubedee-worker") == NODE_FILES
    ensures AliasFiles("kubedee-controller") == NODE_FILES + MANAGER_FILES
  {
    assert |"kubedee-controller"| == 18 && |"kubedee-worker"| == 14 && |"kubedee-etcd"| == 12;
  }

  /** Every container is made from an image that brings what the services of its role need. */
  lemma SourceBrings(image: Image, t: Nodes)
    requires ImageBrings(SourceOf(image), t)
    ensures FitsRole(t, image)
  {
    SourceNames();
    AliasesDiffer();
    var files := AliasFiles(SourceOf(image));
    assert files == if image == Etcd then [UnitPath(EtcdService)] else if image == Controller then NODE_FILES + MANAGER_FILES else NODE_FILES;
    RoleIsBrought(image, files);
    assert RoleFits(t, image);
  }

  lemma RoleIsBrought(image: Image, files: seq<string>)
    requires files == if image == Etcd then [UnitPath(EtcdService)] else if image == Controller then NODE_FILES + MANAGER_FILES else NODE_FILES
    ensures forall f | f in RoleFiles(image) :: f in files
  {
    NodeImageFiles();
    ManagerImageFiles();
    assert image != Etcd ==> forall f | f in NODE_FILES :: f in files;
    assert image == Controller ==> forall f | f in MANAGER_FILES :: f in files;
  }

  /** The profiles a container is given: none if its name tests as etcd. */
  function ProfilesFor(name: string): seq<string> {
    if TestsAsEtcd(name) then [] else ["lxdk"]
  }

  /** Which containers go without the profile. */
  lemma ProfilesByRole(cluster: string, image: Image, id: string)
    ensures ProfilesFor(ContainerName(cluster, image, id)) ==
            if image == Etcd || Contains(cluster, "etcd") || Contains(id, "etcd") then [] else ["lxdk"]
  {
    EtcdTest(cluster, image, id);
  }

  /** A tree holds what a role needs of its image, and has room for what lxdk pushes. */
  ghost predicate FitsRole(t: Nodes, image: Image) {
    forall i | i == image :: RoleFits(t, i)
  }

  /** The same, written out. */
  ghost predicate RoleFits(t: Nodes, image: Image) {
    HasAll(t, RoleFiles(image)) && Roomy(t)
  }

  lemma FitsOpens(t: Nodes, image: Image)
    requires FitsRole(t, image)
    ensures HasAll(t, RoleFiles(image)) && Roomy(t)
  {
    assert RoleFits(t, image);
  }

  lemma FitsHasRoom(t: Nodes, image: Image)
    requires FitsRole(t, image)
    ensures Roomy(t)
  {
    FitsOpens(t, image);
  }

  /** A container as CreateContainer makes it. */
  ghost predicate AsCreated(i: Instance, name: string, image: Image, pool: string, network: string) {
    && i == Instance(false, pool, network, SourceOf(image), ProfilesFor(name), map[], i.tree)
    && FitsRole(i.tree, image)
  }

  /** One instance was added, a container of this cluster made from this image. */
  ghost predicate AddsContainer(m: map<string, Instance>, m': map<string, Instance>, name: string,
                                cluster: string, image: Image, pool: string, network: string) {
    && NamedFor(name, cluster, image)
    && name !in m && name in m' && m' == m[name := m'[name]]
    && AsCreated(m'[name], name, image, pool, network)
  }

  lemma AddedOne(m: map<string, Instance>, m': map<string, Instance>, name: string, id: string, cluster: string, image: Image,
                 pool: string, network: string, tree: Tree)
    requires IsId(id) && name == ContainerName(cluster, image, id) && name !in m && ImageBrings(SourceOf(image), tree)
    requires m' == m[name := Instance(false, pool, network, SourceOf(image), ProfilesFor(name), map[], tree)]
    ensures AddsContainer(m, m', name, cluster, image, pool, network)
  {
    SourceBrings(image, tree);
  }

  /** LXD has the image; the quantifier keeps provers from looking at its alias where they need not. */
  predicate HasImage(images: Images, image: Image) {
    forall i | i == image :: SourceOf(i) in images
  }

  lemma ImageIsThere(images: Images, image: Image)
    ensures HasImage(images, image) <==> SourceOf(image) in images
  {
  }

  /** LXD has all a container of the image is made of. */
  ghost predicate CanMake(lxd: Server, image: Image, pool: string, network: string)
    reads lxd`networks, lxd`pools, lxd`profiles
  {
    network in lxd.networks && pool in lxd.pools && HasImage(lxd.images, image) && "lxdk" in lxd.profiles
  }

  /** containers.CreateContainer */
  method CreateContainer(lxd: Server, image: Image, cluster: string, pool: string, network: string)
    returns (r: Option<string>)
    modifies lxd`instances, lxd`faults, lxd`collisions
    ensures r.Some? ==>
              AddsContainer(old(lxd.instances), lxd.instances, r.value, cluster, image, pool, network)
    ensures r.None? ==>
              lxd.instances == old(lxd.instances) ||
              exists n :: AddsContainer(old(lxd.instances), lxd.instances, n, cluster, image, pool, network)
    ensures r.Some? || lxd.instances != old(lxd.instances) ==>
              network in lxd.networks && pool in lxd.pools && HasImage(lxd.images, image)
    ensures lxd.faults >= old(lxd.faults) && lxd.collisions >= old(lxd.collisions)
    ensures lxd.faults == old(lxd.faults) && lxd.collisions == old(lxd.collisions) && CanMake(lxd, image, pool, network) ==> r.Some?
    ensures lxd.faults == old(lxd.faults) && r.None? ==> lxd.instances == old(lxd.instances)
  {
    var id := CreateId();
    var name := ContainerName(cluster, image, id);
    var profiles := if !Contains(name, "etcd") then ["lxdk"] else [];
    var source := "kubedee-" + image.Text();
    if image == Registry {
      source := "kubedee-worker";
    }
    var ok := lxd.GetNetwork(network);
    if !ok {
      return None;
    }
    ghost var m := lxd.instances;
    ImageIsThere(lxd.images, image);
    ok := lxd.CreateInstance(name, pool, network, source, profiles);
    if lxd.instances != m {
      AddedOne(m, lxd.instances, name, id, cluster, image, pool, network, lxd.images[source]);
    }
    r := if ok then Some(name) else None;
  }

  /** The instance with its running flag set. */
  function Flagged(m: map<string, Instance>, name: string, running: bool): map<string, Instance>
    requires name in m
  {
    m[name := m[name].(running := running)]
  }

  /** containers.StartContainer */
  method StartContainer(lxd: Server, name: string) returns (ok: bool)
    modifies lxd`instances, lxd`faults
    ensures ok ==> name in old(lxd.instances) && lxd.instances == Flagged(old(lxd.instances), name, true)
    ensures lxd.instances == old(lxd.instances) ||
            (name in old(lxd.instances) && lxd.instances == Flagged(old(lxd.instances), name, true))
    ensures lxd.faults >= old(lxd.faults) && (lxd.faults == old(lxd.faults) && name in old(lxd.instances) ==> ok)
  {
    ok := lxd.StartInstance(name);
  }

  /** containers.StopContainer */
  method StopContainer(lxd: Server, name: string) returns (ok: bool)
    modifies lxd`instances, lxd`faults
    ensures ok ==> name in old(lxd.instances) && lxd.instances == Flagged(old(lxd.instances), name, false)
    ensures lxd.instances == old(lxd.instances) ||
            (name in old(lxd.instances) && lxd.instances == Flagged(old(lxd.instances), name, false))
    ensures lxd.faults >= old(lxd.faults) && (lxd.faults == old(lxd.faults) && name in old(lxd.instances) ==> ok)
  {
    ok := lxd.StopInstance(name);
  }

  /** containers.DeleteContainer */
  method DeleteContainer(lxd: Server, name: string) returns (ok: bool)
    modifies lxd`instances, lxd`faults
    ensures ok ==> name in old(lxd.instances) && lxd.instances == old(lxd.instances) - {name}
    ensures || lxd.instances == old(lxd.instances)
            || (name in old(lxd.instances) && lxd.instances == Flagged(old(lxd.instances), name, false))
            || (name in old(lxd.instances) && lxd.instances == old(lxd.instances) - {name})
    ensures lxd.faults >= old(lxd.faults) && (lxd.faults == old(lxd.faults) && name in old(lxd.instances) ==> ok)
  {
    ok := StopContainer(lxd, name);
    if !ok {
      return;
    }
    ghost var m := old(lxd.instances);
    assert Flagged(m, name, false) - {name} == m - {name};
    ok := lxd.DeleteInstance(name);
  }

  /** The devices offer an address that passes every filter but is no address. */
  ghost predicate OffersBadText(nets: map<string, Nic>, blacklist: seq<string>) {
    exists t :: Offers(nets, nets.Keys, blacklist, t) && !ParsesAsIp(t)
  }

  /** No text passes every filter. */
  ghost predicate OffersNothing(nets: map<string, Nic>, blacklist: seq<string>) {
    forall t :: !Offers(nets, nets.Keys, blacklist, t)
  }

  lemma OfferedIsReported(nets: map<string, Nic>, name: string, reports: set<(string, string)>, blacklist: seq<string>, text: string)
    requires ReportedFor(nets, name, reports) && Offers(nets, nets.Keys, blacklist, text)
    ensures (name, text) in reports
  {
    var d, i :| OffersAt(nets, nets.Keys, blacklist, text, d, i);
  }

  /** The request was answered with an address that passes every filter. */
  ghost predicate Answers(a: Ask, blacklist: seq<string>, ip: string) {
    a.reply.Some? && Offers(a.reply.value, a.reply.value.Keys, blacklist, ip) && IPv4Text(ip)
  }

  /** The request was for this container and was not answered with an address to be used. */
  ghost predicate Unanswered(a: Ask, name: string, blacklist: seq<string>) {
    a.name == name && (a.reply.Some? ==> OffersNothing(a.reply.value, blacklist) || OffersBadText(a.reply.value, blacklist))
  }

  /** containers.GetContainerLXDIP */
  method GetContainerLXDIP(lxd: Server, name: string, blacklist: seq<string>) returns (r: Option<string>)
    modifies lxd`faults, lxd`asked
    ensures lxd.faults >= old(lxd.faults)
    ensures |lxd.asked| == |old(lxd.asked)| + 1 && old(lxd.asked) <= lxd.asked && lxd.asked[|old(lxd.asked)|].name == name
    ensures r.Some? ==> name in lxd.instances && IPv4Text(r.value) && !Blacklisted(r.value, blacklist)
    ensures r.Some? ==> Answers(lxd.asked[|old(lxd.asked)|], blacklist, r.value) && (name, r.value) in lxd.reports
    ensures r.None? ==> Unanswered(lxd.asked[|old(lxd.asked)|], name, blacklist)
    ensures lxd.asked[|old(lxd.asked)|].reply.None? && lxd.faults == old(lxd.faults) ==> name !in lxd.instances
  {
    var ok, nets := lxd.GetInstanceFull(name);
    if !ok {
      return None;
    }
    var choice, _ := ChooseAddress(nets, blacklist);
    if choice.Ip? {
      OfferedIsReported(nets, name, lxd.reports, blacklist, choice.text);
      return Some(choice.text);
    }
    r := None;
  }

  /** The requests from the `k`-th to before the `n`-th were all unanswered. */
  ghost predicate AllUnanswered(asked: seq<Ask>, k: int, n: int, name: string, blacklist: seq<string>) {
    0 <= k <= n <= |asked| && forall i | k <= i < n :: Unanswered(asked[i], name, blacklist)
  }

  /**
    What a wait asks: the container's addresses until there is one to use, and
    51 times at most. It ends without one only if all 51 requests were unanswered.
   */
  ghost predicate Waited(a: seq<Ask>, b: seq<Ask>, name: string, blacklist: seq<string>, r: Option<string>) {
    && a <= b && 1 <= |b| - |a| <= 51 && AllUnanswered(b, |a|, |b| - 1, name, blacklist)
    && if r.Some? then Answers(b[|b| - 1], blacklist, r.value) && b[|b| - 1].name == name
       else |b| == |a| + 51 && Unanswered(b[|b| - 1], name, blacklist)
  }

  /** containers.WaitContainerIP: one try and at most fifty more, as long as they fail. */
  method WaitContainerIP(lxd: Server, name: string, blacklist: seq<string>) returns (r: Option<string>)
    modifies lxd`faults, lxd`asked
    ensures lxd.faults >= old(lxd.faults)
    ensures r.Some? ==> name in lxd.instances && IPv4Text(r.value) && !Blacklisted(r.value, blacklist)
    ensures r.Some? ==> (name, r.value) in lxd.reports
    ensures Waited(old(lxd.asked), lxd.asked, name, blacklist, r)
    ensures "" in blacklist ==> r == None
  {
    r := GetContainerLXDIP(lxd, name, blacklist);
    var c := 0;
    while c < 50 && r.None?
      invariant 0 <= c <= 50 && lxd.faults >= old(lxd.faults)
      invariant r.Some? ==> name in lxd.instances && IPv4Text(r.value) && !Blacklisted(r.value, blacklist)
      invariant r.Some? ==> (name, r.value) in lxd.reports
      invariant old(lxd.asked) <= lxd.asked && |lxd.asked| == |old(lxd.asked)| + c + 1
      invariant AllUnanswered(lxd.asked, |old(lxd.asked)|, |lxd.asked| - 1, name, blacklist)
      invariant if r.Some? then Answers(lxd.asked[|lxd.asked| - 1], blacklist, r.value) && lxd.asked[|lxd.asked| - 1].name == name
                else Unanswered(lxd.asked[|lxd.asked| - 1], name, blacklist)
    {
      r := GetContainerLXDIP(lxd, name, blacklist);
      c := c + 1;
    }
    if "" in blacklist {
      EmptyInBlacklist(if r.Some? then r.value else "", blacklist);
    }
  }

  /** A wait for one of the containers ended without an address. */
  ghost predicate GaveUp(a: seq<Ask>, b: seq<Ask>, names: set<string>, blacklist: seq<string>) {
    exists n, k, end :: n in names && |a| <= k && end == k + 51 && AllUnanswered(b, k, end, n, blacklist)
  }

  lemma WaitedInVain(a: seq<Ask>, b: seq<Ask>, name: string, names: set<string>, blacklist: seq<string>)
    requires Waited(a, b, name, blacklist, None) && name in names
    ensures GaveUp(a, b, names, blacklist)
  {
    assert AllUnanswered(b, |a|, |a| + 51, name, blacklist);
  }

  lemma GaveUpWider(a0: seq<Ask>, a: seq<Ask>, b: seq<Ask>, b1: seq<Ask>, few: set<string>, names: set<string>, blacklist: seq<string>)
    requires GaveUp(a, b, few, blacklist) && a0 <= a && b <= b1 && few <= names
    ensures GaveUp(a0, b1, names, blacklist)
  {
    var n, k, end :| n in few && |a| <= k && end == k + 51 && AllUnanswered(b, k, end, n, blacklist);
    assert AllUnanswered(b1, k, end, n, blacklist);
  }

  lemma EmptyInBlacklist(text: string, blacklist: seq<string>)
    requires "" in blacklist
    ensures Blacklisted(text, blacklist)
  {
    var i :| 0 <= i < |blacklist| && blacklist[i] == "";
    assert OccursAt(text, "", 0);
    assert Contains(text, blacklist[i]);
  }

  /** A command line run in a container: "systemctl start" of a service, or any other. */
  datatype Command = Exec | Systemctl(service: Service)

  /** The service start a command issues, if any. */
  function StartOf(container: string, command: Command, tree: Tree): seq<ServiceStart> {
    if command.Systemctl? then [ServiceStart(container, command.service, tree)] else []
  }

  /** The service starts among the commands. */
  function StartsAmong(container: string, commands: seq<Command>, tree: Tree): seq<ServiceStart> {
    if commands == [] then []
    else StartsAmong(container, commands[..|commands| - 1], tree) + StartOf(container, commands[|commands| - 1], tree)
  }

  lemma {:induction false} IssuedReady(container: string, commands: seq<Command>, tree: Tree)
    requires forall s | Systemctl(s) in commands :: ReadyIn(tree, container, s)
    ensures forall i | 0 <= i < |StartsAmong(container, commands, tree)| :: Ready(StartsAmong(container, commands, tree)[i])
  {
    if commands != [] {
      FrontAndLast(commands);
      IssuedReady(container, commands[..|commands| - 1], tree);
    }
  }

  lemma {:induction false} IssuedEach(a: seq<ServiceStart>, container: string, commands: seq<Command>, tree: Tree, s: Service)
    requires Systemctl(s) in commands
    ensures WasStarted(a, a + StartsAmong(container, commands, tree), container, s)
  {
    var front, last := commands[..|commands| - 1], commands[|commands| - 1];
    FrontAndLast(commands);
    var before := a + StartsAmong(container, front, tree);
    assert a + StartsAmong(container, commands, tree) == before + StartOf(container, last, tree);
    if last == Systemctl(s) {
      assert IsStart((before + StartOf(container, last, tree))[|before|], container, s);
    } else {
      IssuedEach(a, container, front, tree, s);
      WasStartedWider(a, a, before, before + StartOf(container, last, tree), container, s);
    }
  }

  lemma {:induction false} IssuedNothing(container: string, commands: seq<Command>, tree: Tree)
    requires forall s :: Systemctl(s) !in commands
    ensures StartsAmong(container, commands, tree) == []
  {
    if commands != [] {
      FrontAndLast(commands);
      IssuedNothing(container, commands[..|commands| - 1], tree);
    }
  }

  /** Commands that start no service add no start. */
  lemma NothingStarted(a: seq<ServiceStart>, b: seq<ServiceStart>, container: string, commands: seq<Command>, tree: Tree)
    requires IssuedSome(a, b, container, commands, tree) && forall s :: Systemctl(s) !in commands
    ensures b == a
  {
    var k :| IssuedUpTo(a, b, container, commands, k, tree);
    assert forall x | x in commands[..k] :: x in commands;
    IssuedNothing(container, commands[..k], tree);
  }

  lemma IssuedNext(container: string, commands: seq<Command>, i: nat, tree: Tree)
    requires i < |commands|
    ensures StartsAmong(container, commands[..i + 1], tree) ==
            StartsAmong(container, commands[..i], tree) + StartOf(container, commands[i], tree)
  {
    TakeNext(commands, i);
    assert (commands[..i] + [commands[i]])[..i] == commands[..i];
  }

  /** The starts added are those the first `k` commands issue. */
  ghost predicate IssuedUpTo(a: seq<ServiceStart>, b: seq<ServiceStart>, container: string, commands: seq<Command>, k: int, tree: Tree) {
    0 <= k <= |commands| && b == a + StartsAmong(container, commands[..k], tree)
  }

  ghost predicate IssuedSome(a: seq<ServiceStart>, b: seq<ServiceStart>, container: string, commands: seq<Command>, tree: Tree) {
    exists k :: IssuedUpTo(a, b, container, commands, k, tree)
  }

  lemma IssuedStep(a: seq<ServiceStart>, b: seq<ServiceStart>, c: seq<ServiceStart>, container: string,
                   commands: seq<Command>, k: nat, tree: Tree)
    requires k < |commands| && IssuedUpTo(a, b, container, commands, k, tree)
    ensures c == b ==> IssuedSome(a, c, container, commands, tree)
    ensures c == b + StartOf(container, commands[k], tree) ==> IssuedUpTo(a, c, container, commands, k + 1, tree)
  {
    IssuedNext(container, commands, k, tree);
  }

  lemma NothingIssued(a: seq<ServiceStart>, container: string, commands: seq<Command>, tree: Tree)
    ensures IssuedUpTo(a, a, container, commands, 0, tree)
  {
  }

  /** One command of RunCommands. */
  method RunCommand(lxd: Server, container: string, command: Command) returns (ok: bool)
    modifies lxd`starts, lxd`faults
    ensures ok ==> container in lxd.instances
    ensures container !in lxd.instances ==> lxd.starts == old(lxd.starts)
    ensures container in lxd.instances ==>
              var more := old(lxd.starts) + StartOf(container, command, lxd.instances[container].tree);
              (lxd.starts == old(lxd.starts) || lxd.starts == more) && (ok ==> lxd.starts == more)
    ensures lxd.faults >= old(lxd.faults) && (lxd.faults == old(lxd.faults) && container in lxd.instances ==> ok)
  {
    match command {
      case Exec =>
        ok := lxd.Touch(container);
      case Systemctl(service) =>
        ok := lxd.StartService(container, service);
    }
  }

  /** containers.RunCommands */
  method RunCommands(lxd: Server, container: string, commands: seq<Command>) returns (ok: bool)
    modifies lxd`starts, lxd`faults
    ensures container !in lxd.instances ==> lxd.starts == old(lxd.starts)
    ensures container in lxd.instances ==>
              IssuedSome(old(lxd.starts), lxd.starts, container, commands, lxd.instances[container].tree)
    ensures ok && commands != [] ==> container in lxd.instances
    ensures container in lxd.instances && ok ==>
              IssuedUpTo(old(lxd.starts), lxd.starts, container, commands, |commands|, lxd.instances[container].tree)
    ensures lxd.faults >= old(lxd.faults) && (lxd.faults == old(lxd.faults) && container in lxd.instances ==> ok)
  {
    ghost var starts, there := lxd.starts, container in lxd.instances;
    ghost var tree: Nodes := if there then lxd.instances[container].tree else map[[] := Dir];
    NothingIssued(starts, container, commands, tree);
    var i := 0;
    while i < |commands|
      invariant 0 <= i <= |commands|
      invariant !there ==> lxd.starts == starts && i == 0
      invariant there ==> IssuedUpTo(starts, lxd.starts, container, commands, i, tree)
      invariant lxd.faults >= old(lxd.faults)
    {
      ghost var before := lxd.starts;
      ok := RunCommand(lxd, container, commands[i]);
      if there {
        IssuedStep(starts, before, lxd.starts, container, commands, i, tree);
      }
      if !ok {
        return;
      }
      i := i + 1;
    }
    ok := true;
  }

  /** If every service's files are there, running the commands only adds ready starts. */
  lemma RunReady(a: seq<ServiceStart>, b: seq<ServiceStart>, container: string, commands: seq<Command>, tree: Tree)
    requires forall s | Systemctl(s) in commands :: ReadyIn(tree, container, s)
    requires IssuedSome(a, b, container, commands, tree)
    ensures StartsReady(a, b)
  {
    var k :| IssuedUpTo(a, b, container, commands, k, tree);
    assert forall x | x in commands[..k] :: x in commands;
    IssuedReady(container, commands[..k], tree);
  }
}
