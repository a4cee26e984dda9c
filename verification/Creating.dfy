/** create: the network, the pool, the profile, the containers, the record and the certificates. */
module Creating {
  import opened Text
  import opened Names
  import opened Wrappers
  import opened Worlds
  import opened Lxd
  import opened Certificates
  import opened Containers
  import opened Steps

  // ---- containers ----

  const IMAGES := [Etcd, Controller, Worker, Registry]

  /** The containers made so far, by the image they are made from; a missing image has none. */
  type Created = map<Image, seq<string>>

  function NamesOf(created: Created, image: Image): seq<string> {
    if image in created then created[image] else []
  }

  /** Exactly the listed containers were added, each made from its image. */
  ghost predicate RolesAdded(m: map<string, Instance>, m': map<string, Instance>, created: Created,
                             c: string, pool: string, network: string) {
    && OldKept(m, m')
    && (forall n | n in m' && n !in m :: exists image :: n in NamesOf(created, image))
    && (forall image, n | n in NamesOf(created, image) :: NewContainer(m, m', n, c, image, pool, network))
    && (forall image :: Distinct(NamesOf(created, image)))
  }

  lemma NoRoles(m: map<string, Instance>, c: string, pool: string, network: string)
    ensures RolesAdded(m, m, map[Worker := []], c, pool, network)
  {
  }

  function OneMore(created: Created, image: Image, n: string): Created {
    created[image := NamesOf(created, image) + [n]]
  }

  lemma OneMoreName(created: Created, image: Image, n: string, k: Image)
    ensures NamesOf(OneMore(created, image, n), k) == if k == image then NamesOf(created, k) + [n] else NamesOf(created, k)
  {
  }

  lemma StillNew(m: map<string, Instance>, m1: map<string, Instance>, m2: map<string, Instance>, x: string,
                 c: string, image: Image, pool: string, network: string)
    requires NewContainer(m, m1, x, c, image, pool, network) && OldKept(m1, m2)
    ensures NewContainer(m, m2, x, c, image, pool, network)
  {
  }

  /** What adding one container does to what was there. */
  lemma AddingKeeps(m: map<string, Instance>, m1: map<string, Instance>, m2: map<string, Instance>,
                    c: string, pool: string, network: string, image: Image, n: string)
    requires OldKept(m, m1) && AddsContainer(m1, m2, n, c, image, pool, network)
    ensures OldKept(m1, m2) && OldKept(m, m2) && NewContainer(m, m2, n, c, image, pool, network)
    ensures forall x :: x in m2 <==> x in m1 || x == n
  {
  }

  lemma RoleAdded(m: map<string, Instance>, m1: map<string, Instance>, m2: map<string, Instance>, created: Created,
                  c: string, pool: string, network: string, image: Image, n: string)
    requires RolesAdded(m, m1, created, c, pool, network)
    requires AddsContainer(m1, m2, n, c, image, pool, network)
    ensures RolesAdded(m, m2, OneMore(created, image, n), c, pool, network)
  {
    var more := OneMore(created, image, n);
    AddingKeeps(m, m1, m2, c, pool, network, image, n);
    forall k
      ensures Distinct(NamesOf(more, k))
      ensures forall x | x in NamesOf(more, k) :: NewContainer(m, m2, x, c, k, pool, network)
    {
      OneMoreName(created, image, n, k);
      forall x | x in NamesOf(created, k)
        ensures NewContainer(m, m2, x, c, k, pool, network) && x != n
      {
        StillNew(m, m1, m2, x, c, k, pool, network);
      }
    }
    forall x | x in m2 && x !in m
      ensures exists k :: x in NamesOf(more, k)
    {
      var k :| x == n || x in NamesOf(created, k);
      OneMoreName(created, image, n, k);
      OneMoreName(created, image, n, image);
    }
  }

  lemma RolesAreOwned(m: map<string, Instance>, m': map<string, Instance>, created: Created, c: string, pool: string, network: string)
    requires RolesAdded(m, m', created, c, pool, network)
    ensures NewOwned(m, m', c, pool, network)
  {
  }

  /** How many containers there are of an image when `numWorkers` were asked for and its turn has come. */
  function CountOf(image: Image, numWorkers: int): nat {
    if numWorkers < 1 then 0 else if image == Worker then numWorkers else 1
  }

  /** Every image that had its turn has its number of containers. */
  ghost predicate Counted(created: Created, numWorkers: int, turns: nat)
    requires turns <= |IMAGES|
  {
    && Worker in created
    && (forall image | image in IMAGES[..turns] :: |NamesOf(created, image)| == CountOf(image, numWorkers))
    && (forall image | image !in IMAGES[..turns] :: NamesOf(created, image) == [])
  }

  /** Only the names of one image have changed. */
  ghost predicate OnlyRole(before: Created, created: Created, image: Image) {
    && (Worker in before ==> Worker in created)
    && forall k | k != image :: NamesOf(created, k) == NamesOf(before, k)
  }

  /** LXD has the network and the pool. */
  ghost predicate Offered(lxd: Server, network: string, pool: string)
    reads lxd`networks, lxd`pools
  {
    network in lxd.networks && pool in lxd.pools
  }

  /** LXD has the images of all four roles. */
  predicate ImagesThere(images: Images) {
    "kubedee-etcd" in images && "kubedee-controller" in images && "kubedee-worker" in images
  }

  lemma ImagesAre(images: Images)
    ensures ImagesThere(images) <==> forall k | 0 <= k < |IMAGES| :: HasImage(images, IMAGES[k])
    ensures ImagesThere(images) ==> forall image :: HasImage(images, image)
  {
    SourceNames();
    ImageIsThere(images, Etcd);
    ImageIsThere(images, Controller);
    ImageIsThere(images, Worker);
    ImageIsThere(images, Registry);
    if forall k | 0 <= k < |IMAGES| :: HasImage(images, IMAGES[k]) {
      assert HasImage(images, IMAGES[0]) && HasImage(images, IMAGES[1]) && HasImage(images, IMAGES[2]);
    }
    forall image | ImagesThere(images)
      ensures HasImage(images, image)
    {
      ImageIsThere(images, image);
    }
  }

  /** One container of a role: on failure whatever was added is the cluster's. */
  method CreateOne(lxd: Server, image: Image, c: string, pool: string, network: string, ghost m: map<string, Instance>, ghost created: Created)
    returns (made: Option<string>)
    requires RolesAdded(m, lxd.instances, created, c, pool, network)
    modifies lxd`instances, lxd`faults, lxd`collisions
    ensures made.Some? ==>
              RolesAdded(m, lxd.instances, OneMore(created, image, made.value), c, pool, network)
    ensures OldKept(m, lxd.instances) && NewOwned(m, lxd.instances, c, pool, network)
    ensures lxd.instances == old(lxd.instances) || Offered(lxd, network, pool)
    ensures made.Some? ==> Offered(lxd, network, pool) && HasImage(lxd.images, image)
    ensures lxd.faults >= old(lxd.faults) && lxd.collisions >= old(lxd.collisions)
    ensures lxd.faults == old(lxd.faults) && lxd.collisions == old(lxd.collisions) && CanMake(lxd, image, pool, network) ==> made.Some?
  {
    ghost var m1 := lxd.instances;
    RolesAreOwned(m, m1, created, c, pool, network);
    made := CreateContainer(lxd, image, c, pool, network);
    if made.Some? {
      RoleAdded(m, m1, lxd.instances, created, c, pool, network, image, made.value);
      RolesAreOwned(m, lxd.instances, OneMore(created, image, made.value), c, pool, network);
    } else if lxd.instances != m1 {
      ghost var n :| AddsContainer(m1, lxd.instances, n, c, image, pool, network);
      RoleAdded(m, m1, lxd.instances, created, c, pool, network, image, n);
      RolesAreOwned(m, lxd.instances, OneMore(created, image, n), c, pool, network);
    }
  }

  /** The inner loop of createContainers: one container, or for workers as many as were asked for. */
  method CreateRole(lxd: Server, roles: Created, image: Image, c: string, pool: string, network: string, numWorkers: int,
                    ghost m: map<string, Instance>)
    returns (created: Option<Created>)
    requires RolesAdded(m, lxd.instances, roles, c, pool, network) && NamesOf(roles, image) == []
    modifies lxd`instances, lxd`faults, lxd`collisions
    ensures created.Some? ==> RolesAdded(m, lxd.instances, created.value, c, pool, network)
    ensures created.Some? ==> OnlyRole(roles, created.value, image)
    ensures created.Some? ==> |NamesOf(created.value, image)| == CountOf(image, numWorkers)
    ensures created.None? ==> OldKept(m, lxd.instances) && NewOwned(m, lxd.instances, c, pool, network)
    ensures numWorkers < 1 ==> lxd.instances == old(lxd.instances)
    ensures lxd.instances == old(lxd.instances) || Offered(lxd, network, pool)
    ensures created.Some? && numWorkers >= 1 ==> Offered(lxd, network, pool) && HasImage(lxd.images, image)
    ensures lxd.faults >= old(lxd.faults) && lxd.collisions >= old(lxd.collisions)
    ensures lxd.faults == old(lxd.faults) && lxd.collisions == old(lxd.collisions) && CanMake(lxd, image, pool, network) ==> created.Some?
    ensures numWorkers < 1 ==> created.Some?
  {
    var made := roles;
    var i := 0;
    while i < numWorkers
      invariant 0 <= i && (i <= numWorkers || i == 0) && (i > 0 ==> image == Worker)
      invariant RolesAdded(m, lxd.instances, made, c, pool, network)
      invariant OnlyRole(roles, made, image) && |NamesOf(made, image)| == i
      invariant if i == 0 then lxd.instances == old(lxd.instances) else Offered(lxd, network, pool) && HasImage(lxd.images, image)
      invariant lxd.faults >= old(lxd.faults) && lxd.collisions >= old(lxd.collisions)
    {
      var name := CreateOne(lxd, image, c, pool, network, m, made);
      if name.None? {
        return None;
      }
      made := OneMore(made, image, name.value);
      if image != Worker {
        break;
      }
      i := i + 1;
    }
    created := Some(made);
  }

  /** createContainers */
  method CreateContainers(lxd: Server, c: string, pool: string, network: string, numWorkers: int)
    returns (created: Option<Created>)
    modifies lxd`instances, lxd`faults, lxd`collisions
    ensures created.Some? ==> RolesAdded(old(lxd.instances), lxd.instances, created.value, c, pool, network)
    ensures created.Some? ==> Counted(created.value, numWorkers, |IMAGES|)
    ensures created.None? ==> OldKept(old(lxd.instances), lxd.instances)
    ensures created.None? ==> NewOwned(old(lxd.instances), lxd.instances, c, pool, network)
    ensures numWorkers < 1 ==> lxd.instances == old(lxd.instances)
    ensures lxd.instances == old(lxd.instances) || Offered(lxd, network, pool)
    ensures created.Some? && numWorkers >= 1 ==> Offered(lxd, network, pool) && ImagesThere(lxd.images)
    ensures lxd.faults >= old(lxd.faults) && lxd.collisions >= old(lxd.collisions)
    ensures lxd.faults == old(lxd.faults) && lxd.collisions == old(lxd.collisions) ==>
              Offered(lxd, network, pool) && ImagesThere(lxd.images) && "lxdk" in lxd.profiles ==> created.Some?
    ensures numWorkers < 1 ==> created.Some?
  {
    ghost var m := lxd.instances;
    ImagesAre(lxd.images);
    var roles: Created := map[Worker := []];
    NoRoles(m, c, pool, network);
    for turn := 0 to |IMAGES|
      invariant RolesAdded(m, lxd.instances, roles, c, pool, network) && Counted(roles, numWorkers, turn)
      invariant numWorkers < 1 ==> lxd.instances == m
      invariant lxd.instances == m || Offered(lxd, network, pool)
      invariant numWorkers >= 1 && turn > 0 ==> Offered(lxd, network, pool)
      invariant numWorkers >= 1 ==> forall k | 0 <= k < turn :: HasImage(lxd.images, IMAGES[k])
      invariant lxd.faults >= old(lxd.faults) && lxd.collisions >= old(lxd.collisions)
    {
      NotYet(turn);
      var more := CreateRole(lxd, roles, IMAGES[turn], c, pool, network, numWorkers, m);
      if more.None? {
        return None;
      }
      TurnTaken(roles, more.value, numWorkers, turn);
      roles := more.value;
    }
    created := Some(roles);
  }

  lemma NotYet(turn: nat)
    requires turn < |IMAGES|
    ensures IMAGES[turn] !in IMAGES[..turn]
  {
  }

  /** One more image has had its turn. */
  lemma TurnTaken(before: Created, created: Created, numWorkers: int, turn: nat)
    requires turn < |IMAGES| && Counted(before, numWorkers, turn) && OnlyRole(before, created, IMAGES[turn])
    requires |NamesOf(created, IMAGES[turn])| == CountOf(IMAGES[turn], numWorkers)
    ensures Counted(created, numWorkers, turn + 1)
  {
  }

  // ---- the record ----

  /** The containers of an image if it is in the set. */
  function Part(created: Created, images: set<Image>, image: Image): multiset<string> {
    if image in images then multiset(NamesOf(created, image)) else multiset{}
  }

  /** The containers of the images in a set. */
  function NamesIn(created: Created, images: set<Image>): multiset<string> {
    Part(created, images, Etcd) + Part(created, images, Controller) + Part(created, images, Registry) + Part(created, images, Worker)
  }

  lemma NamesInNext(created: Created, images: set<Image>, image: Image)
    requires image !in images
    ensures NamesIn(created, images + {image}) == NamesIn(created, images) + multiset(NamesOf(created, image))
  {
    PartNext(created, images, image, Etcd);
    PartNext(created, images, image, Controller);
    PartNext(created, images, image, Registry);
    PartNext(created, images, image, Worker);
  }

  lemma PartNext(created: Created, images: set<Image>, image: Image, k: Image)
    requires image !in images
    ensures Part(created, images + {image}, k) ==
            if k == image then multiset(NamesOf(created, image)) else Part(created, images, k)
    ensures k == image ==> Part(created, images, k) == multiset{}
  {
  }

  /** The loops that list all containers; the images come in any order. */
  method ListAll(created: Created) returns (containers: seq<string>)
    ensures multiset(containers) == NamesIn(created, created.Keys)
  {
    containers := [];
    var left := created.Keys;
    ghost var visited: set<Image> := {};
    while left != {}
      invariant left !! visited && left + visited == created.Keys
      invariant multiset(containers) == NamesIn(created, visited)
      decreases left
    {
      var image :| image in left;
      var names, before := created[image], containers;
      for i := 0 to |names|
        invariant containers == before + names[..i]
      {
        TakeNext(names, i);
        containers := containers + [names[i]];
      }
      assert names[..|names|] == names;
      NamesInNext(created, visited, image);
      left, visited := left - {image}, visited + {image};
    }
  }

  lemma {:induction false} CountInDistinct(names: seq<string>, x: string)
    requires Distinct(names)
    ensures multiset(names)[x] <= 1
  {
    if names != [] {
      var front, last := names[..|names| - 1], names[|names| - 1];
      FrontAndLast(names);
      CountInDistinct(front, x);
      assert multiset(names) == multiset(front) + multiset{last};
      assert last !in front;
    }
  }

  lemma TwiceCounts(names: seq<string>, i: nat, j: nat)
    requires i < j < |names| && names[i] == names[j]
    ensures multiset(names)[names[i]] >= 2
  {
    assert names == names[..j] + names[j..];
    assert names[i] in names[..j] && names[j] in names[j..];
    assert multiset(names) == multiset(names[..j]) + multiset(names[j..]);
  }

  /** Whether names repeat does not depend on their order. */
  lemma DistinctAnyOrder(a: seq<string>, b: seq<string>)
    requires Distinct(a) && multiset(a) == multiset(b)
    ensures Distinct(b)
  {
    forall i, j | 0 <= i < j < |b|
      ensures b[i] != b[j]
    {
      if b[i] == b[j] {
        TwiceCounts(b, i, j);
        CountInDistinct(a, b[i]);
      }
    }
  }

  /** The roles of a record that was put together from the containers made. */
  ghost predicate RolesFrom(s: ClusterState, created: Created) {
    && NamesOf(created, Etcd) == [s.etcd] && NamesOf(created, Controller) == [s.controller]
    && NamesOf(created, Registry) == [s.registry] && NamesOf(created, Worker) == s.workers
  }

  lemma RolesInOrder(s: ClusterState, created: Created)
    requires RolesFrom(s, created)
    ensures created.Keys >= {Etcd, Controller, Registry}
    ensures NamesIn(created, created.Keys) == multiset(Roles(s))
  {
    assert multiset(Roles(s)) == multiset{s.etcd, s.controller, s.registry} + multiset(s.workers);
  }

  lemma RoleIs(m: map<string, Instance>, m': map<string, Instance>, created: Created, c: string, pool: string, network: string,
               image: Image, n: string)
    requires RolesAdded(m, m', created, c, pool, network) && n in NamesOf(created, image)
    ensures NamedFor(n, c, image)
  {
    assert NewContainer(m, m', n, c, image, pool, network);
  }

  /** Every role of the record has a name of its image. */
  ghost predicate RolesNamed(s: ClusterState, c: string) {
    && NamedFor(s.etcd, c, Etcd) && NamedFor(s.controller, c, Controller) && NamedFor(s.registry, c, Registry)
    && forall i | 0 <= i < |s.workers| :: NamedFor(s.workers[i], c, Worker)
  }

  lemma RolesAreNamed(m: map<string, Instance>, m': map<string, Instance>, s: ClusterState, created: Created,
                      c: string, pool: string, network: string)
    requires RolesAdded(m, m', created, c, pool, network) && RolesFrom(s, created)
    ensures RolesNamed(s, c) && Distinct(s.workers)
  {
    RoleIs(m, m', created, c, pool, network, Etcd, s.etcd);
    RoleIs(m, m', created, c, pool, network, Controller, s.controller);
    RoleIs(m, m', created, c, pool, network, Registry, s.registry);
    forall i | 0 <= i < |s.workers|
      ensures NamedFor(s.workers[i], c, Worker)
    {
      RoleIs(m, m', created, c, pool, network, Worker, s.workers[i]);
    }
  }

  lemma RolesDistinct(s: ClusterState, c: string)
    requires RolesNamed(s, c) && Distinct(s.workers)
    ensures Distinct(Roles(s))
  {
  }

  /** A record that lists the containers made is the cluster's own. */
  lemma RecordFits(m: map<string, Instance>, m': map<string, Instance>, s: ClusterState, created: Created, c: string)
    requires RolesAdded(m, m', created, c, s.storagePool, s.networkID) && RolesFrom(s, created)
    requires s.name == c && s.workers != [] && multiset(s.containers) == multiset(Roles(s))
    ensures RecordFor(s, c) && Distinct(s.containers)
  {
    RolesAreNamed(m, m', s, created, c, s.storagePool, s.networkID);
    RolesDistinct(s, c);
    DistinctAnyOrder(Roles(s), s.containers);
  }

  lemma SameElements(a: seq<string>, b: seq<string>)
    requires multiset(a) == multiset(b)
    ensures forall n :: n in a <==> n in b
  {
    forall n
      ensures n in a <==> n in b
    {
      assert n in multiset(a) <==> n in multiset(b);
    }
  }

  lemma RolesCover(s: ClusterState, created: Created, n: string)
    requires RolesFrom(s, created)
    ensures n in Roles(s) <==> exists image :: n in NamesOf(created, image)
  {
    if n in Roles(s) {
      assert n in NamesOf(created, Etcd) || n in NamesOf(created, Controller) || n in NamesOf(created, Registry) || n in NamesOf(created, Worker);
    }
    if image :| n in NamesOf(created, image) {
      assert image == Etcd || image == Controller || image == Registry || image == Worker;
      assert Roles(s)[0] == s.etcd && Roles(s)[1] == s.controller && Roles(s)[2] == s.registry;
    }
  }

  lemma NewContainersOf(m: map<string, Instance>, m': map<string, Instance>, s: ClusterState, created: Created, c: string)
    requires RolesAdded(m, m', created, c, s.storagePool, s.networkID) && RolesFrom(s, created)
    ensures NewContainer(m, m', s.etcd, c, Etcd, s.storagePool, s.networkID)
    ensures NewContainer(m, m', s.controller, c, Controller, s.storagePool, s.networkID)
    ensures NewContainer(m, m', s.registry, c, Registry, s.storagePool, s.networkID)
    ensures forall i | 0 <= i < |s.workers| :: NewContainer(m, m', s.workers[i], c, Worker, s.storagePool, s.networkID)
  {
  }

  /** ... and lists exactly what was added. */
  lemma RecordListsAll(m: map<string, Instance>, m': map<string, Instance>, s: ClusterState, created: Created, c: string)
    requires RolesAdded(m, m', created, c, s.storagePool, s.networkID) && RolesFrom(s, created)
    requires multiset(s.containers) == multiset(Roles(s))
    ensures m'.Keys == m.Keys + NameSet(s.containers)
  {
    SameElements(s.containers, Roles(s));
    forall n
      ensures n in m'.Keys <==> n in m.Keys + NameSet(s.containers)
    {
      RolesCover(s, created, n);
      if n in s.containers {
        var image :| n in NamesOf(created, image);
        assert NewContainer(m, m', n, c, image, s.storagePool, s.networkID);
      }
    }
  }

  // ---- network, pool, profile ----

  /** The name of its own create needs is free, or the given one is not looked at. */
  predicate NameOpen(names: set<string>, given: string, own: string) {
    given == "" ==> own !in names
  }

  /** The names once create has added its own. */
  function WithOwn(names: set<string>, given: string, own: string): set<string> {
    if given == "" then names + {own} else names
  }

  /** What is left of the names when one of them is to be deleted. */
  function Left(names: set<string>, x: string, free: bool): set<string> {
    if x in names && free then names - {x} else names
  }

  /** createNetwork, unless a network was given. */
  method MakeNetwork(lxd: Server, c: string, given: string) returns (ok: bool, network: string)
    modifies lxd`networks, lxd`faults
    ensures network == (if given == "" then OwnName(c) else given)
    ensures ok ==> AddedIfOpen(old(lxd.networks), lxd.networks, given, OwnName(c))
    ensures old(lxd.networks) <= lxd.networks
    ensures AbortedNames(old(lxd.networks), lxd.networks, given, OwnName(c))
    ensures lxd.faults >= old(lxd.faults)
    ensures lxd.faults == old(lxd.faults) ==> (ok <==> NameOpen(old(lxd.networks), given, OwnName(c)))
    ensures lxd.faults == old(lxd.faults) && !ok ==> lxd.networks == old(lxd.networks)
  {
    ok, network := true, given;
    if given == "" {
      network := "lxdk-" + c;
      ok := lxd.CreateNetwork(network);
    }
  }

  /** createStoragePool, unless a pool was given. */
  method MakePool(lxd: Server, c: string, given: string) returns (ok: bool, pool: string)
    modifies lxd`pools, lxd`faults
    ensures pool == (if given == "" then OwnName(c) else given)
    ensures ok ==> AddedIfOpen(old(lxd.pools), lxd.pools, given, OwnName(c))
    ensures given != "" ==> lxd.pools == old(lxd.pools)
    ensures old(lxd.pools) <= lxd.pools
    ensures AbortedNames(old(lxd.pools), lxd.pools, given, OwnName(c))
    ensures lxd.faults >= old(lxd.faults)
    ensures lxd.faults == old(lxd.faults) ==> (ok <==> NameOpen(old(lxd.pools), given, OwnName(c)))
    ensures lxd.faults == old(lxd.faults) && !ok ==> lxd.pools == old(lxd.pools)
  {
    ok, pool := true, given;
    if given == "" {
      pool := "lxdk-" + c;
      ok := lxd.CreateStoragePool(pool);
    }
  }

  /** There is the profile create needs, or one to copy it from. */
  predicate ProfileThere(profiles: set<string>) {
    "lxdk" in profiles || "default" in profiles
  }

  /** Make sure the profile is there; CreateContainerProfile copies the default one. */
  method EnsureProfile(lxd: Server) returns (ok: bool)
    modifies lxd`profiles, lxd`faults
    ensures old(lxd.profiles) <= lxd.profiles <= old(lxd.profiles) + {"lxdk"}
    ensures ok ==> lxd.profiles == old(lxd.profiles) + {"lxdk"} && ProfileThere(old(lxd.profiles))
    ensures lxd.faults >= old(lxd.faults) && (lxd.faults == old(lxd.faults) && ProfileThere(old(lxd.profiles)) ==> ok)
  {
    var names;
    ok, names := lxd.GetProfileNames();
    if ok && "lxdk" !in names {
      ok := lxd.GetProfile("default");
      if ok {
        ok := lxd.CreateProfile("lxdk");
      }
    }
  }

  /** Rolling back deletes whatever network is used, made here or given, unless an instance holds it. */
  method RollBackNetwork(lxd: Server, network: string)
    modifies lxd`networks, lxd`faults
    ensures || lxd.networks == old(lxd.networks)
            || (lxd.networks == old(lxd.networks) - {network} && NetworkFree(lxd.instances, network))
    ensures lxd.faults >= old(lxd.faults)
    ensures lxd.faults == old(lxd.faults) ==> lxd.networks == Left(old(lxd.networks), network, NetworkFree(lxd.instances, network))
  {
    var _ := lxd.DeleteNetwork(network);
  }

  /** Rolling back deletes the pool used if its name says that lxdk made it, unless an instance holds it. */
  method RollBackPool(lxd: Server, pool: string)
    modifies lxd`pools, lxd`faults
    ensures || lxd.pools == old(lxd.pools)
            || (lxd.pools == old(lxd.pools) - {pool} && PoolFree(lxd.instances, pool) && Contains(pool, "lxdk"))
    ensures lxd.faults >= old(lxd.faults)
    ensures lxd.faults == old(lxd.faults) ==>
              lxd.pools == Left(old(lxd.pools), pool, PoolFree(lxd.instances, pool) && Contains(pool, "lxdk"))
  {
    if Contains(pool, "lxdk") {
      var _ := lxd.DeleteStoragePool(pool);
    }
  }

  /** What a rollback makes of the names create found and added to. */
  lemma RolledBack(before: set<string>, between: set<string>, after: set<string>, given: string, own: string, free: bool)
    requires AddedIfOpen(before, between, given, own)
    requires var used := if given == "" then own else given;
             after == between || (after == between - {used} && free)
    ensures AbortedNames(before, after, given, own)
    ensures forall x | x in before && x !in after :: x == given && free
    ensures !free ==> after == between
  {
  }

  /** The network, pool and profile are in place; nothing else changed. */
  ghost predicate Prepared(w: World, c: string, o: Options, w': World) {
    && w' == w.(networks := w'.networks, pools := w'.pools, profiles := w.profiles + {"lxdk"})
    && AddedIfOpen(w.networks, w'.networks, o.network, OwnName(c))
    && AddedIfOpen(w.pools, w'.pools, o.pool, OwnName(c))
  }

  /**
    What create leaves of the networks and pools when it fails and no call was
    lost: nothing of them if its own network's name is taken; no network of
    its own if its own pool's name is; both, if the profile is missing or no
    worker was asked for; and neither if a container could not be made, but for
    what instances hold or a name that does not say lxdk.
   */
  ghost predicate CleanlyFailed(w: World, c: string, o: Options, w': World) {
    var networks, pools := WithOwn(w.networks, o.network, OwnName(c)), WithOwn(w.pools, o.pool, OwnName(c));
    if !NameOpen(w.networks, o.network, OwnName(c)) then w'.networks == w.networks && w'.pools == w.pools
    else if !NameOpen(w.pools, o.pool, OwnName(c)) then
      w'.networks == Left(networks, NetworkOf(c, o), NetworkFree(w'.instances, NetworkOf(c, o))) && w'.pools == w.pools
    else if !ProfileThere(w.profiles) || o.numWorkers < 1 then w'.networks == networks && w'.pools == pools
    else
      && w'.networks == Left(networks, NetworkOf(c, o), NetworkFree(w'.instances, NetworkOf(c, o)))
      && w'.pools == Left(pools, PoolOf(c, o), PoolFree(w'.instances, PoolOf(c, o)) && Contains(PoolOf(c, o), "lxdk"))
  }

  /** create's names are open and the profile is there. */
  predicate CanPrepare(w: World, c: string, o: Options) {
    NameOpen(w.networks, o.network, OwnName(c)) && NameOpen(w.pools, o.pool, OwnName(c)) && ProfileThere(w.profiles)
  }

  /** The first half of create. */
  method Prepare(lxd: Server, cache: Cache, c: string, o: Options) returns (ok: bool, network: string, pool: string)
    modifies lxd`networks, lxd`pools, lxd`profiles, lxd`faults
    ensures ok ==> network == NetworkOf(c, o) && pool == PoolOf(c, o)
    ensures ok ==> Prepared(old(Snapshot(lxd, cache)), c, o, Snapshot(lxd, cache)) && CanPrepare(old(Snapshot(lxd, cache)), c, o)
    ensures !ok ==> CreateAborted(old(Snapshot(lxd, cache)), c, o, Snapshot(lxd, cache))
    ensures lxd.faults >= old(lxd.faults)
    ensures lxd.faults == old(lxd.faults) && !ok ==>
              !CanPrepare(old(Snapshot(lxd, cache)), c, o) && CleanlyFailed(old(Snapshot(lxd, cache)), c, o, Snapshot(lxd, cache))
  {
    pool := "";
    ok, network := MakeNetwork(lxd, c, o.network);
    if ok {
      ok, pool := MakePool(lxd, c, o.pool);
      if ok {
        ok := EnsureProfile(lxd);
      } else {
        ghost var between := lxd.networks;
        RollBackNetwork(lxd, network);
        RolledBack(old(lxd.networks), between, lxd.networks, o.network, OwnName(c), NetworkFree(lxd.instances, network));
      }
    }
  }

  // ---- all of it ----

  /** Once the containers are made the record follows from them. */
  method Describe(c: string, o: Options, network: string, pool: string, created: Created) returns (state: ClusterState)
    requires Counted(created, o.numWorkers, |IMAGES|) && Etcd in created && network == NetworkOf(c, o) && pool == PoolOf(c, o)
    requires o.numWorkers >= 1
    ensures RolesFrom(state, created) && multiset(state.containers) == multiset(Roles(state))
    ensures state.name == c && state.runState == Uninitialized && |state.workers| == o.numWorkers
    ensures state.networkID == NetworkOf(c, o) && state.storagePool == PoolOf(c, o) && state.storageDriver == o.driver
  {
    assert IMAGES[..|IMAGES|] == IMAGES;
    assert Etcd in IMAGES && Controller in IMAGES && Registry in IMAGES && Worker in IMAGES;
    assert |NamesOf(created, Controller)| == 1 && |NamesOf(created, Registry)| == 1;
    assert |NamesOf(created, Etcd)| == 1 && |NamesOf(created, Worker)| == o.numWorkers;
    var containers := ListAll(created);
    state := ClusterState(c, network, containers, Uninitialized, created[Etcd][0], created[Controller][0], created[Registry][0],
                          created[Worker], o.driver, pool);
    RolesInOrder(state, created);
  }

  lemma EtcdMade(created: Created, numWorkers: int)
    requires Counted(created, numWorkers, |IMAGES|)
    ensures Etcd in created && created[Etcd] != [] <==> numWorkers >= 1
  {
    assert IMAGES[..|IMAGES|] == IMAGES && Etcd in IMAGES;
    assert |NamesOf(created, Etcd)| == CountOf(Etcd, numWorkers);
  }

  lemma EtcdAdded(m: map<string, Instance>, m': map<string, Instance>, created: Created, c: string, pool: string, network: string)
    requires RolesAdded(m, m', created, c, pool, network) && Etcd in created && created[Etcd] != []
    ensures m' != m
  {
    assert created[Etcd][0] in NamesOf(created, Etcd);
    assert NewContainer(m, m', created[Etcd][0], c, Etcd, pool, network);
  }

  /** A container of the cluster's that was added holds its network and its pool. */
  lemma NewHolds(m: map<string, Instance>, m': map<string, Instance>, c: string, pool: string, network: string)
    requires OldKept(m, m') && NewOwned(m, m', c, pool, network) && m' != m
    ensures !NetworkFree(m', network) && !PoolFree(m', pool)
  {
    assert m'.Keys <= m.Keys ==> m' == m;
    var n :| n in m'.Keys && n !in m.Keys;
    var image :| NewContainer(m, m', n, c, image, pool, network);
  }

  lemma AbortsAfterPreparing(w: World, w1: World, w2: World, c: string, o: Options)
    requires Prepared(w, c, o, w1) && w2 == w1.(instances := w2.instances, networks := w2.networks, pools := w2.pools)
    requires OldKept(w.instances, w2.instances) && NewOwned(w.instances, w2.instances, c, PoolOf(c, o), NetworkOf(c, o))
    requires o.numWorkers < 1 ==> w2.instances == w.instances
    requires w2.instances != w.instances ==> NetworkOf(c, o) in w1.networks && PoolOf(c, o) in w1.pools
    requires || w2.networks == w1.networks
             || (w2.networks == w1.networks - {NetworkOf(c, o)} && NetworkFree(w2.instances, NetworkOf(c, o)))
    requires || w2.pools == w1.pools
             || (w2.pools == w1.pools - {PoolOf(c, o)} && PoolFree(w2.instances, PoolOf(c, o)) && Contains(PoolOf(c, o), "lxdk"))
    ensures CreateAborted(w, c, o, w2)
  {
    if w2.instances != w.instances {
      NewHolds(w.instances, w2.instances, c, PoolOf(c, o), NetworkOf(c, o));
    }
    RolledBack(w.networks, w1.networks, w2.networks, o.network, OwnName(c), NetworkFree(w2.instances, NetworkOf(c, o)));
    RolledBack(w.pools, w1.pools, w2.pools, o.pool, OwnName(c), PoolFree(w2.instances, PoolOf(c, o)));
  }

  lemma CreateSucceeds(w: World, w1: World, w2: World, c: string, o: Options, s: ClusterState, created: Created)
    requires Prepared(w, c, o, w1) && RolesAdded(w1.instances, w2.instances, created, c, PoolOf(c, o), NetworkOf(c, o))
    requires w2 == w1.(instances := w2.instances, clusters := w2.clusters)
    requires RolesFrom(s, created) && multiset(s.containers) == multiset(Roles(s))
    requires s.name == c && s.runState == Uninitialized && |s.workers| == o.numWorkers && s.workers != []
    requires s.networkID == NetworkOf(c, o) && s.storagePool == PoolOf(c, o) && s.storageDriver == o.driver
    requires c in w2.clusters && w2.clusters == w.clusters[c := w2.clusters[c]] && w2.clusters[c].record == Some(s)
    requires BaseSound(w2.clusters[c])
    requires NetworkOf(c, o) in w2.networks && PoolOf(c, o) in w2.pools
    ensures CreateMade(w, c, o, w2, s)
  {
    RecordFits(w.instances, w2.instances, s, created, c);
    RecordListsAll(w.instances, w2.instances, s, created, c);
    NewContainersOf(w.instances, w2.instances, s, created, c);
  }

  /** How create ends once its network, pool and profile are there. */
  ghost predicate Populated(w: World, c: string, o: Options, r: Outcome, w': World) {
    || (r == Failed && CreateAborted(w, c, o, w'))
    || ((r == Done || r == Failed) && exists s :: CreateMade(w, c, o, w', s) && (r == Done ==> HasBase(w'.clusters[c])))
  }

  /** What stands in the way of a create no call of which is lost: names taken or not there, the profile, an image, no worker. */
  predicate CanCreateCluster(w: World, c: string, o: Options, images: Images) {
    && c !in w.clusters && CanPrepare(w, c, o) && o.numWorkers >= 1 && ImagesThere(images)
    && (o.network != "" ==> o.network in w.networks) && (o.pool != "" ==> o.pool in w.pools)
  }

  /** The second half of create: containers, record, certificates. */
  method Populate(lxd: Server, cache: Cache, c: string, o: Options, network: string, pool: string, ghost w: World)
    returns (r: Outcome)
    requires c !in cache.clusters && network == NetworkOf(c, o) && pool == PoolOf(c, o)
    requires Prepared(w, c, o, Snapshot(lxd, cache)) && CanPrepare(w, c, o)
    modifies cache, lxd`instances, lxd`networks, lxd`pools, lxd`faults, lxd`collisions
    ensures Populated(w, c, o, r, Snapshot(lxd, cache))
    ensures Faults(lxd, cache) >= old(Faults(lxd, cache)) && lxd.collisions >= old(lxd.collisions)
    ensures r == Done ==> CanCreateCluster(w, c, o, lxd.images)
    ensures Faults(lxd, cache) == old(Faults(lxd, cache)) && lxd.collisions == old(lxd.collisions) && CanCreateCluster(w, c, o, lxd.images) ==>
              r == Done
    ensures Faults(lxd, cache) == old(Faults(lxd, cache)) && r != Done ==> CleanlyFailed(w, c, o, Snapshot(lxd, cache))
  {
    ghost var w1 := Snapshot(lxd, cache);
    r := Failed;
    var created := CreateContainers(lxd, c, pool, network, o.numWorkers);
    if created.None? {
      RollBack(lxd, cache, c, o, network, pool, w, w1);
    } else {
      r := Describing(lxd, cache, c, o, network, pool, created.value, w, w1);
    }
  }

  /** The rest of create once its containers are made; without any, the first of them is out of range. */
  method Describing(lxd: Server, cache: Cache, c: string, o: Options, network: string, pool: string, created: Created,
                    ghost w: World, ghost w1: World)
    returns (r: Outcome)
    requires c !in cache.clusters && network == NetworkOf(c, o) && pool == PoolOf(c, o)
    requires Prepared(w, c, o, w1) && CanPrepare(w, c, o) && RolesAdded(w1.instances, lxd.instances, created, c, pool, network)
    requires Snapshot(lxd, cache) == w1.(instances := lxd.instances) && Counted(created, o.numWorkers, |IMAGES|)
    requires o.numWorkers >= 1 ==> network in lxd.networks && pool in lxd.pools
    requires o.numWorkers < 1 ==> lxd.instances == w.instances
    modifies cache
    ensures Populated(w, c, o, r, Snapshot(lxd, cache))
    ensures cache.faults >= old(cache.faults)
    ensures r == Done ==> o.numWorkers >= 1
    ensures cache.faults == old(cache.faults) && r != Done ==> o.numWorkers < 1 && CleanlyFailed(w, c, o, Snapshot(lxd, cache))
  {
    r := Failed;
    RolesAreOwned(w.instances, lxd.instances, created, c, pool, network);
    AbortsAfterPreparing(w, w1, Snapshot(lxd, cache), c, o);
    NoWorkersFail(w, w1, Snapshot(lxd, cache), c, o);
    EtcdMade(created, o.numWorkers);
    if Etcd in created && created[Etcd] != [] {
      EtcdAdded(w.instances, lxd.instances, created, c, pool, network);
      r := Record(lxd, cache, c, o, network, pool, created, w, w1);
    }
  }

  lemma NoWorkersFail(w: World, w1: World, w2: World, c: string, o: Options)
    requires Prepared(w, c, o, w1) && CanPrepare(w, c, o) && w2 == w1.(instances := w2.instances)
    ensures o.numWorkers < 1 ==> CleanlyFailed(w, c, o, w2)
  {
  }

  /** Delete the network and the pool once a container could not be made. */
  method RollBack(lxd: Server, cache: Cache, c: string, o: Options, network: string, pool: string, ghost w: World, ghost w1: World)
    requires network == NetworkOf(c, o) && pool == PoolOf(c, o) && Prepared(w, c, o, w1) && CanPrepare(w, c, o)
    requires Snapshot(lxd, cache) == w1.(instances := lxd.instances) && o.numWorkers >= 1
    requires OldKept(w.instances, lxd.instances) && NewOwned(w.instances, lxd.instances, c, pool, network)
    requires lxd.instances != w.instances ==> network in lxd.networks && pool in lxd.pools
    modifies lxd`networks, lxd`pools, lxd`faults
    ensures CreateAborted(w, c, o, Snapshot(lxd, cache))
    ensures lxd.faults >= old(lxd.faults)
    ensures lxd.faults == old(lxd.faults) ==> CleanlyFailed(w, c, o, Snapshot(lxd, cache))
  {
    RollBackNetwork(lxd, network);
    RollBackPool(lxd, pool);
    AbortsAfterPreparing(w, w1, Snapshot(lxd, cache), c, o);
  }

  /** Write the record and make the certificates. */
  method Record(lxd: Server, cache: Cache, c: string, o: Options, network: string, pool: string, created: Created,
                ghost w: World, ghost w1: World)
    returns (r: Outcome)
    requires c !in cache.clusters && network == NetworkOf(c, o) && pool == PoolOf(c, o)
    requires Prepared(w, c, o, w1) && RolesAdded(w1.instances, lxd.instances, created, c, pool, network)
    requires Snapshot(lxd, cache) == w1.(instances := lxd.instances) && CreateAborted(w, c, o, Snapshot(lxd, cache))
    requires Counted(created, o.numWorkers, |IMAGES|) && Etcd in created && o.numWorkers >= 1
    requires network in lxd.networks && pool in lxd.pools
    modifies cache
    ensures Populated(w, c, o, r, Snapshot(lxd, cache))
    ensures cache.faults >= old(cache.faults) && (cache.faults == old(cache.faults) ==> r == Done)
  {
    var state := Describe(c, o, network, pool, created);
    var ok := cache.WriteRecord(c, state);
    r := Failed;
    if ok {
      r := CreateCerts(cache, c);
      CreateSucceeds(w, w1, Snapshot(lxd, cache), c, o, state, created);
    }
  }

  /** doCreate */
  method DoCreate(lxd: Server, cache: Cache, c: string, o: Options) returns (r: Outcome)
    modifies cache, lxd`instances, lxd`networks, lxd`pools, lxd`profiles, lxd`faults, lxd`collisions
    ensures CreateStep(old(Snapshot(lxd, cache)), c, o, r, Snapshot(lxd, cache))
    ensures Faults(lxd, cache) >= old(Faults(lxd, cache)) && lxd.collisions >= old(lxd.collisions)
    ensures r == Done ==> CanCreateCluster(old(Snapshot(lxd, cache)), c, o, lxd.images)
    ensures Faults(lxd, cache) == old(Faults(lxd, cache)) && lxd.collisions == old(lxd.collisions) ==>
              CanCreateCluster(old(Snapshot(lxd, cache)), c, o, lxd.images) ==> r == Done
    ensures Faults(lxd, cache) == old(Faults(lxd, cache)) && r == Failed ==>
              CleanlyFailed(old(Snapshot(lxd, cache)), c, o, Snapshot(lxd, cache))
  {
    ghost var w := Snapshot(lxd, cache);
    r := Failed;
    var ok := lxd.Connect();
    if ok {
      if c in cache.clusters {
        return Refused;
      }
      var network, pool;
      ok, network, pool := Prepare(lxd, cache, c, o);
      if ok {
        r := Populate(lxd, cache, c, o, network, pool, w);
      }
    }
  }
}
