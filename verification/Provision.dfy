/**
  What start and start-worker do to running containers: issue certificates,
  push files, start services. Everything here only adds files and starts
  services that are ready.
 */
module Provision {
  import opened Text
  import opened Paths
  import opened Trees
  import opened Rooms
  import opened Names
  import opened Worlds
  import opened Lxd
  import opened Upload
  import opened Certificates
  import opened Containers

  // ---- single steps seen from the whole world ----

  /** Where there was room in the instance there still is. */
  ghost predicate RoomKept(m: map<string, Instance>, m': map<string, Instance>, name: string) {
    name in m && name in m' && Roomy(m[name].tree) ==> Roomy(m'[name].tree)
  }

  lemma PushProvisions(w: World, w': World, c: string, name: string)
    requires w' == w.(instances := w'.instances) && c in w.clusters
    requires w'.instances == w.instances || OnlyGrows(w.instances, w'.instances, name)
    requires RoomKept(w.instances, w'.instances, name)
    ensures Provisions(w, w', c, {name})
  {
    assert w.clusters == w.clusters[c := w.clusters[c]];
    BaseSameSelf(w.clusters[c]);
    assert ProvisionsTo(w, w', c, {name}, w.clusters[c]);
  }

  lemma LocalProvisions(w: World, w': World, c: string, names: set<string>)
    requires w' == w.(clusters := w'.clusters) && LocalGrows(w.clusters, w'.clusters, c) && BaseSame(w.clusters[c], w'.clusters[c])
    ensures Provisions(w, w', c, names)
  {
    assert ProvisionsTo(w, w', c, names, w'.clusters[c]);
  }

  lemma StartProvisions(w: World, w': World, c: string, names: set<string>)
    requires w' == w.(starts := w'.starts) && c in w.clusters && StartsReady(w.starts, w'.starts)
    ensures Provisions(w, w', c, names)
  {
    assert w.clusters == w.clusters[c := w.clusters[c]];
    BaseSameSelf(w.clusters[c]);
    assert ProvisionsTo(w, w', c, names, w.clusters[c]);
  }

  lemma DevicesProvision(w: World, w': World, c: string, name: string)
    requires w' == w.(instances := w'.instances) && c in w.clusters
    requires w'.instances == w.instances || OnlyDevices(w.instances, w'.instances, name)
    ensures Provisions(w, w', c, {name})
  {
    assert w.clusters == w.clusters[c := w.clusters[c]];
    BaseSameSelf(w.clusters[c]);
    assert ProvisionsTo(w, w', c, {name}, w.clusters[c]);
  }

  /** Only this instance's devices changed, and none went away. */
  ghost predicate OnlyDevices(m: map<string, Instance>, m': map<string, Instance>, name: string) {
    && name in m && name in m' && m' == m[name := m[name].(devices := m'[name].devices)]
    && m[name].devices.Keys <= m'[name].devices.Keys
  }

  /** Files lxdk pushes. */
  predicate PushedNames(files: seq<string>) {
    forall i | 0 <= i < |files| :: PushedName(files[i])
  }

  lemma PushedPair(name: string)
    requires '/' !in name
    ensures PushedName(PemName(name)) && PushedName(KeyName(name)) && PushedName(name + ".kubeconfig")
  {
  }

  /** Every listed local file is there to be read. */
  predicate HasLocal(d: ClusterDir, folder: string, files: seq<string>) {
    forall i | 0 <= i < |files| :: folder + files[i] in d.files
  }

  /** The place has one of the names. */
  predicate Ends(p: seq<string>, files: seq<string>) {
    p != [] && p[|p| - 1] in files
  }

  /** Nodes whose last name is none of the listed ones are as they were. */
  ghost predicate OthersKept(t: Nodes, u: Nodes, files: seq<string>) {
    forall p | p in t && !Ends(p, files) :: p in u && u[p] == t[p]
  }

  /** The local file's bytes are in the directory of the tree. */
  ghost predicate CopiedOne(u: Nodes, to: string, d: ClusterDir, folder: string, f: string) {
    folder + f in d.files && Holds(u, to + f, d.files[folder + f])
  }

  /** Every listed local file's bytes are in the directory of the tree. */
  ghost predicate Copied(u: Nodes, to: string, d: ClusterDir, folder: string, files: seq<string>) {
    forall f | f in files :: CopiedOne(u, to, d, folder, f)
  }

  lemma CopiedHasAll(u: Nodes, to: string, d: ClusterDir, folder: string, files: seq<string>)
    requires Copied(u, to, d, folder, files)
    ensures HasAll(u, Under(to, files)) && HasLocal(d, folder, files)
  {
    forall p | p in Under(to, files)
      ensures IsFile(u, Locate(p))
    {
      var i :| 0 <= i < |files| && p == to + files[i];
      assert CopiedOne(u, to, d, folder, files[i]);
    }
    forall i | 0 <= i < |files|
      ensures folder + files[i] in d.files
    {
      assert CopiedOne(u, to, d, folder, files[i]);
    }
  }

  /** The base names of files of one folder are their names in it. */
  lemma Bases(folder: string, files: seq<string>)
    requires IsFolder(folder) && PushedNames(files)
    ensures |Under(folder, files)| == |files|
    ensures forall i | 0 <= i < |files| :: BaseName(Under(folder, files)[i]) == files[i]
  {
    forall i | 0 <= i < |files|
      ensures BaseName(Under(folder, files)[i]) == files[i]
    {
      SplitPathAt(folder, files[i]);
    }
  }

  /** Files of one folder that go to the same place are the same file, so however often one is listed, its bytes arrive. */
  lemma {:induction false} DepositsCopy(t: Nodes, dir: seq<string>, froms: seq<string>, local: map<string, string>, i: nat)
    requires i < |froms| && forall f | f in froms :: f in local
    requires forall j, k | 0 <= j < |froms| && 0 <= k < |froms| && BaseName(froms[j]) == BaseName(froms[k]) :: froms[j] == froms[k]
    ensures var u := Deposits(t, dir, froms, local);
            Target(dir, froms[i]) in u && u[Target(dir, froms[i])] == File(local[froms[i]])
    decreases |froms|
  {
    var n := |froms| - 1;
    if i < n && froms[i] != froms[n] {
      DepositsCopy(t, dir, froms[..n], local, i);
      TargetsApart(dir, froms[i], froms[n]);
    }
  }

  lemma LandedAll(t: Tree, u: Nodes, to: string, folder: string, files: seq<string>, d: ClusterDir)
    requires IsFolder(to) && IsFolder(folder) && PushedNames(files) && files != []
    requires UploadedAll(t, u, to, Under(folder, files), d.files)
    ensures Copied(u, to, d, folder, files) && OthersKept(t, u, files)
  {
    var froms := Under(folder, files);
    Bases(folder, files);
    forall f | f in files
      ensures CopiedOne(u, to, d, folder, f)
    {
      var i :| 0 <= i < |files| && files[i] == f;
      assert froms[i] in froms;
      DepositsCopy(MakeAll(t, Parts(to)), Locate(to), froms, d.files, i);
      LocateUnder(to, f);
    }
    forall p | p in t && !Ends(p, files)
      ensures p in u && u[p] == t[p]
    {
      NotLanded(t, u, to, froms, files, d.files, p);
    }
  }

  lemma NotLanded(t: Tree, u: Nodes, to: string, froms: seq<string>, files: seq<string>, local: map<string, string>, p: seq<string>)
    requires UploadedAll(t, u, to, froms, local) && p in t && !Ends(p, files)
    requires |froms| == |files| && forall i | 0 <= i < |files| :: BaseName(froms[i]) == files[i]
    ensures p in u && u[p] == t[p]
  {
    if froms != [] {
      forall i | 0 <= i < |froms|
        ensures p != Target(Locate(to), froms[i])
      {
        assert Target(Locate(to), froms[i])[|Locate(to)|] == files[i];
      }
      DepositsKeep(MakeAll(t, Parts(to)), Locate(to), froms, local, p);
      MakeAllAdds(t, Parts(to));
    }
  }

  /** The container's trees before and after. */
  ghost predicate HaveTrees(m: map<string, Instance>, m': map<string, Instance>, container: string, t: Nodes, u: Nodes) {
    container in m && container in m' && m[container].tree == t && m'[container].tree == u
  }

  /** The files' bytes are in the container's directory, and nodes of other names are as they were. */
  ghost predicate Landed(m: map<string, Instance>, m': map<string, Instance>, container: string, to: string,
                         d: ClusterDir, folder: string, files: seq<string>) {
    exists t, u :: HaveTrees(m, m', container, t, u) && Copied(u, to, d, folder, files) && OthersKept(t, u, files)
  }

  /** The container is there and has room for what lxdk pushes. */
  ghost predicate RoomIn(m: map<string, Instance>, container: string) {
    container in m && Roomy(m[container].tree)
  }

  /** UploadFiles of files of one local folder into one directory of a container. */
  method PushLocal(lxd: Server, cache: Cache, c: string, folder: string, files: seq<string>, to: string, container: string)
    returns (r: Outcome)
    requires c in cache.clusters && PushDir(to) && IsFolder(folder) && PushedNames(files) && files != []
    modifies lxd`instances, lxd`faults
    ensures Provisions(old(Snapshot(lxd, cache)), Snapshot(lxd, cache), c, {container})
    ensures r != Refused
    ensures r.Missing? ==> !HasLocal(cache.clusters[c], folder, files)
    ensures r == Done ==> Landed(old(lxd.instances), lxd.instances, container, to, cache.clusters[c], folder, files)
    ensures lxd.faults >= old(lxd.faults)
    ensures lxd.faults == old(lxd.faults) && RoomIn(old(lxd.instances), container) ==> r == Done || r.Missing?
  {
    ghost var w := Snapshot(lxd, cache);
    var local, froms := cache.clusters[c].files, Under(folder, files);
    PushDirs(to);
    Bases(folder, files);
    assert GoesToRoom(to, froms) by {
      forall f | f in froms
        ensures PushedName(BaseName(f))
      {
        var i :| 0 <= i < |files| && froms[i] == f;
      }
    }
    r := UploadFiles(lxd, local, froms, to, container);
    PushProvisions(w, Snapshot(lxd, cache), c, container);
    if r == Done {
      LandedAll(w.instances[container].tree, lxd.instances[container].tree, to, folder, files, cache.clusters[c]);
      assert HaveTrees(w.instances, lxd.instances, container, w.instances[container].tree, lxd.instances[container].tree);
    }
  }

  lemma OthersKeptTwice(t: Nodes, u: Nodes, v: Nodes, a: seq<string>, b: seq<string>)
    requires OthersKept(t, u, a) && OthersKept(u, v, b)
    ensures OthersKept(t, v, a + b)
  {
  }

  /** Files stay as they were copied when others are pushed. */
  lemma CopiedKept(t: Nodes, u: Nodes, to: string, d: ClusterDir, folder: string, files: seq<string>, others: seq<string>)
    requires Copied(t, to, d, folder, files) && OthersKept(t, u, others) && IsFolder(to) && PushedNames(files)
    requires forall f | f in files :: f !in others
    ensures Copied(u, to, d, folder, files)
  {
    forall f | f in files
      ensures CopiedOne(u, to, d, folder, f)
    {
      assert CopiedOne(t, to, d, folder, f) && PushedName(f);
      LocateUnder(to, f);
    }
  }

  /** The bytes of certificates and kubeconfigs are in the container, and nodes of other names are as they were. */
  ghost predicate HasSecrets(m: map<string, Instance>, m': map<string, Instance>, container: string, d: ClusterDir,
                             certs: seq<string>, kubeconfigs: seq<string>) {
    exists t, u :: HaveTrees(m, m', container, t, u) && SecretsAt(u, d, certs, kubeconfigs) && OthersKept(t, u, certs + kubeconfigs)
  }

  ghost predicate SecretsAt(u: Nodes, d: ClusterDir, certs: seq<string>, kubeconfigs: seq<string>) {
    Copied(u, KUBE_DIR, d, "certificates/", certs) && Copied(u, KUBE_DIR, d, "kubeconfigs/", kubeconfigs)
  }

  /** No name in one list is in the other. */
  predicate Apart(a: seq<string>, b: seq<string>) {
    forall f | f in a :: f !in b
  }

  lemma KubeDirIsFolder()
    ensures PushDir(KUBE_DIR) && IsFolder(KUBE_DIR) && IsFolder("certificates/") && IsFolder("kubeconfigs/")
  {
  }

  lemma BothPushed(m0: map<string, Instance>, m1: map<string, Instance>, m2: map<string, Instance>, d: ClusterDir,
                   certs: seq<string>, kubeconfigs: seq<string>, container: string)
    requires PushedNames(certs) && Apart(certs, kubeconfigs)
    requires Landed(m0, m1, container, KUBE_DIR, d, "certificates/", certs)
    requires Landed(m1, m2, container, KUBE_DIR, d, "kubeconfigs/", kubeconfigs)
    ensures HasSecrets(m0, m2, container, d, certs, kubeconfigs)
  {
    var t, u :| HaveTrees(m0, m1, container, t, u) && Copied(u, KUBE_DIR, d, "certificates/", certs) && OthersKept(t, u, certs);
    var u1, v :| HaveTrees(m1, m2, container, u1, v) && Copied(v, KUBE_DIR, d, "kubeconfigs/", kubeconfigs) && OthersKept(u1, v, kubeconfigs);
    KubeDirIsFolder();
    CopiedKept(u, v, KUBE_DIR, d, "certificates/", certs, kubeconfigs);
    OthersKeptTwice(t, u, v, certs, kubeconfigs);
    assert HaveTrees(m0, m2, container, t, v) && SecretsAt(v, d, certs, kubeconfigs);
  }

  /** Certificates, then kubeconfigs, into /etc/kubernetes/ of a container. */
  method PushSecrets(lxd: Server, cache: Cache, c: string, certs: seq<string>, kubeconfigs: seq<string>, container: string)
    returns (r: Outcome)
    requires c in cache.clusters && PushedNames(certs) && PushedNames(kubeconfigs) && certs != [] && kubeconfigs != []
    requires Apart(certs, kubeconfigs)
    modifies lxd`instances, lxd`faults
    ensures Provisions(old(Snapshot(lxd, cache)), Snapshot(lxd, cache), c, {container})
    ensures r != Refused
    ensures r.Missing? ==> !(HasLocal(cache.clusters[c], "certificates/", certs) && HasLocal(cache.clusters[c], "kubeconfigs/", kubeconfigs))
    ensures r == Done ==> HasSecrets(old(lxd.instances), lxd.instances, container, cache.clusters[c], certs, kubeconfigs)
    ensures lxd.faults >= old(lxd.faults)
    ensures lxd.faults == old(lxd.faults) && RoomIn(old(lxd.instances), container) ==> r == Done || r.Missing?
  {
    ghost var w0 := Snapshot(lxd, cache);
    KubeDirIsFolder();
    r := PushLocal(lxd, cache, c, "certificates/", certs, KUBE_DIR, container);
    if r == Done {
      ghost var w1 := Snapshot(lxd, cache);
      RoomStaysIn(w0, w1, c, {container}, container);
      r := PushLocal(lxd, cache, c, "kubeconfigs/", kubeconfigs, KUBE_DIR, container);
      ProvisionsTwice(w0, w1, Snapshot(lxd, cache), c, {container});
      if r == Done {
        BothPushed(w0.instances, w1.instances, lxd.instances, cache.clusters[c], certs, kubeconfigs, container);
      }
    }
  }

  lemma RoomStaysIn(w: World, w': World, c: string, names: set<string>, container: string)
    requires Provisions(w, w', c, names)
    ensures RoomIn(w.instances, container) ==> RoomIn(w'.instances, container)
  {
    var d :| ProvisionsTo(w, w', c, names, d);
    if RoomIn(w.instances, container) {
      assert container in names ==> TreeOnly(w.instances[container], w'.instances[container]);
    }
  }

  // ---- what the copies in a container say ----

  /** A pair issued for an identity is one in the container its files were copied to. */
  lemma PairCopied(u: Nodes, to: string, d: ClusterDir, certs: seq<string>, id: Identity)
    requires Copied(u, to, d, "certificates/", certs) && Issued(d, id)
    requires PemName(id.file) in certs && KeyName(id.file) in certs && PemName(id.ca) in certs
    ensures HoldsPair(u, to, id)
  {
    assert IssuedTo(d, id);
    var x :| IssuedAs(d, id, x);
    assert CopiedOne(u, to, d, "certificates/", PemName(id.file)) && CopiedOne(u, to, d, "certificates/", KeyName(id.file));
    assert CopiedOne(u, to, d, "certificates/", PemName(id.ca));
    assert HoldsPairAs(u, to, id, x);
  }

  /** A kubeconfig made with a user's own pair is the user's in the container it was copied to. */
  lemma ConfigCopied(u: Nodes, d: ClusterDir, certs: seq<string>, kubeconfigs: seq<string>, file: string, server: string, user: string, id: Identity)
    requires SecretsAt(u, d, certs, kubeconfigs) && file in kubeconfigs && PemName("ca") in certs
    requires Configured(d, file, server, user, id.file) && Issued(d, id) && id.ca == "ca"
    ensures HoldsConfig(u, file, user, id)
  {
    assert IssuedTo(d, id);
    var x :| IssuedAs(d, id, x);
    assert CopiedOne(u, KUBE_DIR, d, "certificates/", PemName("ca")) && CopiedOne(u, KUBE_DIR, d, "kubeconfigs/", file);
    assert HoldsConfigAs(u, file, user, id, ConfigAt(d, file), x);
  }

  // ---- given bytes, and commands ----

  /** At most a file of this name was pushed into the container. */
  ghost predicate NamePushed(m: map<string, Instance>, m': map<string, Instance>, container: string, name: string) {
    if container !in m then m' == m
    else OnlyGrows(m, m', container) && RoomKept(m, m', container) && OthersKept(m[container].tree, m'[container].tree, [name])
  }

  /** UploadFile of given bytes. */
  method PushBytes(lxd: Server, data: string, dir: string, name: string, container: string) returns (ok: bool)
    requires PushDir(dir) && PushedName(name) && data != ""
    modifies lxd`instances, lxd`faults
    ensures NamePushed(old(lxd.instances), lxd.instances, container, name)
    ensures ok ==> container in lxd.instances && Holds(lxd.instances[container].tree, dir + name, data)
    ensures lxd.faults >= old(lxd.faults)
    ensures lxd.faults == old(lxd.faults) && RoomIn(old(lxd.instances), container) ==> ok
  {
    ghost var m := lxd.instances;
    PushDirs(dir);
    var r := UploadFile(lxd, map[], data, "", dir + name, container);
    if container in m {
      DataPushed(m[container].tree, lxd.instances[container].tree, dir, name);
    }
    ok := r == Done;
  }

  /** The same, seen from the whole world. */
  method PushData(lxd: Server, cache: Cache, c: string, data: string, dir: string, name: string, container: string) returns (r: Outcome)
    requires c in cache.clusters && PushDir(dir) && PushedName(name) && data != ""
    modifies lxd`instances, lxd`faults
    ensures Provisions(old(Snapshot(lxd, cache)), Snapshot(lxd, cache), c, {container})
    ensures r == Done || r == Failed
    ensures NamePushed(old(lxd.instances), lxd.instances, container, name)
    ensures r == Done ==> container in lxd.instances && Holds(lxd.instances[container].tree, dir + name, data)
    ensures lxd.faults >= old(lxd.faults)
    ensures lxd.faults == old(lxd.faults) && RoomIn(old(lxd.instances), container) ==> r == Done
  {
    ghost var w := Snapshot(lxd, cache);
    var ok := PushBytes(lxd, data, dir, name, container);
    PushProvisions(w, Snapshot(lxd, cache), c, container);
    r := if ok then Done else Failed;
  }

  lemma DataPushed(t: Tree, u: Nodes, dir: string, name: string)
    requires PushDir(dir) && PushedName(name)
    requires OnlyNode(t, u, Locate(dir + name)) && Touches(t, u, Parts(SplitPath(dir + name).0), Locate(dir + name))
    ensures OthersKept(t, u, [name])
    ensures Roomy(t) ==> Roomy(u) && HasRoom(t, Parts(SplitPath(dir + name).0), Locate(dir + name))
  {
    PushDirs(dir);
    SplitPathAt(dir, name);
    LocateUnder(dir, name);
    if Roomy(t) {
      RoomToPut(t, dir, name);
      RoomStays(t, u, dir, name);
    }
  }

  /** What stands at `p` is as it was. */
  ghost predicate NodeKept(t: Nodes, u: Nodes, p: seq<string>) {
    p in t ==> p in u && u[p] == t[p]
  }

  /** The starts added are all in one container. */
  ghost predicate StartsIn(a: seq<ServiceStart>, b: seq<ServiceStart>, container: string) {
    a <= b && forall k | |a| <= k < |b| :: b[k].container == container
  }

  /** Every service the commands start is ready. */
  ghost predicate CommandsReady(t: Nodes, container: string, commands: seq<Command>) {
    forall s | Systemctl(s) in commands :: ReadyIn(t, container, s)
  }

  /** RunCommands when every service's files are in the container. */
  method RunAll(lxd: Server, cache: Cache, c: string, container: string, commands: seq<Command>) returns (r: Outcome)
    requires c in cache.clusters
    requires container in lxd.instances ==> CommandsReady(lxd.instances[container].tree, container, commands)
    modifies lxd`starts, lxd`faults
    ensures Provisions(old(Snapshot(lxd, cache)), Snapshot(lxd, cache), c, {container})
    ensures r == Done || r == Failed
    ensures r == Done && commands != [] && container in lxd.instances ==>
              forall s | Systemctl(s) in commands ::
                StartedWith(old(lxd.starts), lxd.starts, container, s, lxd.instances[container].tree)
    ensures r == Done && commands != [] ==> container in lxd.instances
    ensures (forall s :: Systemctl(s) !in commands) ==> lxd.starts == old(lxd.starts)
    ensures StartsIn(old(lxd.starts), lxd.starts, container)
    ensures lxd.faults >= old(lxd.faults) && (lxd.faults == old(lxd.faults) && container in lxd.instances ==> r == Done)
  {
    ghost var w := Snapshot(lxd, cache);
    var ok := RunCommands(lxd, container, commands);
    if container in lxd.instances {
      if forall s :: Systemctl(s) !in commands {
        NothingStarted(w.starts, lxd.starts, container, commands, lxd.instances[container].tree);
      }
      RunReady(w.starts, lxd.starts, container, commands, lxd.instances[container].tree);
      RunStartsIn(w.starts, lxd.starts, container, commands, lxd.instances[container].tree);
      if ok {
        RunStarts(w.starts, lxd.starts, container, commands, lxd.instances[container].tree);
      }
    }
    StartProvisions(w, Snapshot(lxd, cache), c, {container});
    r := if ok then Done else Failed;
  }

  /** Among the starts added is one of this service in this container, which had this tree then. */
  ghost predicate StartedWith(a: seq<ServiceStart>, b: seq<ServiceStart>, container: string, service: Service, tree: Nodes) {
    exists k :: |a| <= k < |b| && IsStart(b[k], container, service) && b[k].tree == tree
  }

  lemma StartedWithIsStarted(a: seq<ServiceStart>, b: seq<ServiceStart>, container: string, service: Service, tree: Nodes)
    requires StartedWith(a, b, container, service, tree)
    ensures WasStarted(a, b, container, service)
  {
  }

  lemma {:induction false} IssuedIn(container: string, commands: seq<Command>, tree: Tree)
    ensures forall i | 0 <= i < |StartsAmong(container, commands, tree)| ::
              StartsAmong(container, commands, tree)[i].container == container && StartsAmong(container, commands, tree)[i].tree == tree
  {
    if commands != [] {
      IssuedIn(container, commands[..|commands| - 1], tree);
    }
  }

  lemma RunStartsIn(a: seq<ServiceStart>, b: seq<ServiceStart>, container: string, commands: seq<Command>, tree: Tree)
    requires IssuedSome(a, b, container, commands, tree)
    ensures StartsIn(a, b, container)
  {
    var k :| IssuedUpTo(a, b, container, commands, k, tree);
    IssuedIn(container, commands[..k], tree);
  }

  lemma RunStarts(a: seq<ServiceStart>, b: seq<ServiceStart>, container: string, commands: seq<Command>, tree: Tree)
    requires IssuedUpTo(a, b, container, commands, |commands|, tree)
    ensures forall s | Systemctl(s) in commands :: StartedWith(a, b, container, s, tree)
  {
    assert commands[..|commands|] == commands;
    IssuedIn(container, commands, tree);
    forall s | Systemctl(s) in commands
      ensures StartedWith(a, b, container, s, tree)
    {
      IssuedEach(a, container, commands, tree, s);
      var k :| |a| <= k < |b| && IsStart(b[k], container, s);
      assert b[k] == StartsAmong(container, commands, tree)[k - |a|];
    }
  }

  /** A container's tree keeps what it holds while the world is provisioned. */
  lemma KeptByProvisions(w: World, w': World, c: string, names: set<string>, container: string)
    requires Provisions(w, w', c, names) && container in w.instances
    ensures container in w'.instances && Keeps(w.instances[container].tree, w'.instances[container].tree)
  {
  }

  /** The container, if it exists, has what its role needs of its image, and room. */
  ghost predicate FitsIn(m: map<string, Instance>, container: string, image: Image) {
    container in m ==> FitsRole(m[container].tree, image)
  }

  lemma FitsKept(w: World, w': World, c: string, names: set<string>, container: string, image: Image)
    requires Provisions(w, w', c, names) && FitsIn(w.instances, container, image)
    ensures FitsIn(w'.instances, container, image)
    ensures container in w.instances <==> container in w'.instances
  {
    var d :| ProvisionsTo(w, w', c, names, d);
    if container in w.instances {
      FitsOpens(w.instances[container].tree, image);
      RoomStaysIn(w, w', c, names, container);
      KeptByProvisions(w, w', c, names, container);
      HasAllKept(w.instances[container].tree, w'.instances[container].tree, RoleFiles(image));
      assert RoleFits(w'.instances[container].tree, image);
    }
  }

  // ---- a worker node ----

  function NameLine(container: string): string {
    "CONTAINER_NAME=" + ToLower(container)
  }

  /** The environment file configureWorker writes. */
  function WorkerEnv(container: string, etcdIP: string): string {
    if TestsAsController(container) then NameLine(container) + "\n" + EtcdEnv(etcdIP) else NameLine(container)
  }

  lemma LinesPlain(container: string, etcdIP: string)
    requires GoodName(container) && '\n' !in etcdIP
    ensures '\n' !in NameLine(container) && '\n' !in EtcdEnv(etcdIP)
  {
  }

  /** The second environment file of a controller keeps the binding of the first, whatever the cluster is called. */
  lemma EnvKeepsEtcd(container: string, cluster: string, etcdIP: string)
    requires NamedFor(container, cluster, Controller) && GoodName(container) && '\n' !in etcdIP
    ensures Bindings(EtcdEnv(etcdIP)) == ["ETCD_IP=" + etcdIP]
    ensures Bindings(WorkerEnv(container, etcdIP)) == ["CONTAINER_NAME=" + ToLower(container), "ETCD_IP=" + etcdIP]
  {
    var id :| IsId(id) && container == ContainerName(cluster, Controller, id);
    ControllerTest(cluster, Controller, id);
    LinesPlain(container, etcdIP);
    SplitSingle(EtcdEnv(etcdIP), '\n');
    SplitCons(NameLine(container), '\n', EtcdEnv(etcdIP));
  }

  /** The environment file of every other node has the node's own name and nothing else. */
  lemma EnvNamesNode(container: string, cluster: string, image: Image, etcdIP: string)
    requires NamedFor(container, cluster, image) && GoodName(container) && image != Controller && !Contains(cluster, "controller")
    ensures Bindings(WorkerEnv(container, etcdIP)) == ["CONTAINER_NAME=" + ToLower(container)]
  {
    var id :| IsId(id) && container == ContainerName(cluster, image, id);
    ControllerTest(cluster, image, id);
    LinesPlain(container, "");
    SplitSingle(NameLine(container), '\n');
  }

  /** The certificate files a worker is given. */
  function WorkerCerts(node: string): seq<string> {
    [PemName("ca"), KeyName("ca"), PemName("etcd"), KeyName("etcd"), PemName("ca-etcd"), PemName(node), KeyName(node)]
  }

  /** The kubeconfigs a worker is given. */
  function WorkerKubeconfigs(node: string): seq<string> {
    ["kube-proxy.kubeconfig", KubeletConfigName(node)]
  }

  /** Names of certificates and keys, and of kubeconfigs. */
  predicate PemNames(files: seq<string>) {
    forall i | 0 <= i < |files| :: PushedName(files[i]) && HasSuffix(files[i], ".pem")
  }

  predicate ConfigNames(files: seq<string>) {
    forall i | 0 <= i < |files| :: PushedName(files[i]) && HasSuffix(files[i], ".kubeconfig")
  }

  lemma PemOf(name: string)
    requires '/' !in name
    ensures PemNames([PemName(name)]) && PemNames([KeyName(name)]) && PemNames([PemName(name), KeyName(name)])
  {
  }

  lemma ConfigOfName(name: string)
    requires '/' !in name
    ensures ConfigNames([name + ".kubeconfig"])
  {
  }

  lemma PemNamesJoin(a: seq<string>, b: seq<string>)
    requires PemNames(a) && PemNames(b)
    ensures PemNames(a + b)
  {
  }

  lemma ConfigNamesJoin(a: seq<string>, b: seq<string>)
    requires ConfigNames(a) && ConfigNames(b)
    ensures ConfigNames(a + b)
  {
  }

  lemma SuffixesApart(certs: seq<string>, kubeconfigs: seq<string>)
    requires PemNames(certs) && ConfigNames(kubeconfigs)
    ensures PushedNames(certs) && PushedNames(kubeconfigs) && Apart(certs, kubeconfigs)
    ensures "env" !in certs + kubeconfigs
  {
    forall i | 0 <= i < |certs|
      ensures certs[i][|certs[i]| - 1] == 'm'
    {
    }
    forall i | 0 <= i < |kubeconfigs|
      ensures kubeconfigs[i][|kubeconfigs[i]| - 1] == 'g'
    {
    }
  }

  lemma WorkerCertNames(a: string, b: string, c: string, node: string)
    requires '/' !in a && '/' !in b && '/' !in c && '/' !in node
    ensures PemNames([PemName(a), KeyName(a), PemName(b), KeyName(b), PemName(c), PemName(node), KeyName(node)])
  {
    PemOf(a);
    PemOf(b);
    PemOf(c);
    PemOf(node);
    PemNamesJoin([PemName(a), KeyName(a)], [PemName(b), KeyName(b)]);
    PemNamesJoin([PemName(a), KeyName(a)] + [PemName(b), KeyName(b)], [PemName(c)]);
    PemNamesJoin([PemName(a), KeyName(a)] + [PemName(b), KeyName(b)] + [PemName(c)], [PemName(node), KeyName(node)]);
    assert [PemName(a), KeyName(a), PemName(b), KeyName(b), PemName(c), PemName(node), KeyName(node)] ==
           [PemName(a), KeyName(a)] + [PemName(b), KeyName(b)] + [PemName(c)] + [PemName(node), KeyName(node)];
  }

  lemma WorkerConfigNames(a: string, b: string)
    requires '/' !in a && '/' !in b
    ensures ConfigNames([a + ".kubeconfig", b + ".kubeconfig"])
  {
    ConfigOfName(a);
    ConfigOfName(b);
    ConfigNamesJoin([a + ".kubeconfig"], [b + ".kubeconfig"]);
    assert [a + ".kubeconfig", b + ".kubeconfig"] == [a + ".kubeconfig"] + [b + ".kubeconfig"];
  }

  lemma WorkerNames(node: string)
    requires '/' !in node
    ensures PushedNames(WorkerCerts(node)) && PushedNames(WorkerKubeconfigs(node)) && Apart(WorkerCerts(node), WorkerKubeconfigs(node))
    ensures "env" !in WorkerCerts(node) + WorkerKubeconfigs(node)
    ensures PemNames(WorkerCerts(node)) && ConfigNames(WorkerKubeconfigs(node))
  {
    WorkerCertNames("ca", "etcd", "ca-etcd", node);
    WorkerConfigNames("kube-proxy", node + "-kubelet");
    assert "kube-proxy" + ".kubeconfig" == "kube-proxy.kubeconfig" && (node + "-kubelet") + ".kubeconfig" == KubeletConfigName(node);
    SuffixesApart(WorkerCerts(node), WorkerKubeconfigs(node));
  }

  /** The container holds the node's certificates and kubeconfigs as they are in the cache. */
  ghost predicate NodeSecrets(t: Nodes, d: ClusterDir, node: string) {
    SecretsAt(t, d, WorkerCerts(node), WorkerKubeconfigs(node))
  }

  /** The node's own certificate and kube-proxy's say what they are to say. */
  ghost predicate NodeCertified(d: ClusterDir, node: string) {
    Issued(d, NodeIdentity(node)) && Issued(d, BASE_IDENTITIES[4])
  }

  /** The paths among a node's files that its services name. */
  ghost predicate NodeFilesThere(t: Nodes, node: string) {
    && HasAll(t, KubeletConfigFiles(node)) && HasAll(t, [KUBE_DIR + "kube-proxy.kubeconfig"])
    && HasAll(t, [KUBE_DIR + KubeletConfigName(node)])
  }

  lemma SecretsAreThere(t: Nodes, d: ClusterDir, node: string)
    requires NodeSecrets(t, d, node)
    ensures NodeFilesThere(t, node)
  {
    var certs, kubeconfigs := WorkerCerts(node), WorkerKubeconfigs(node);
    assert certs[0] == PemName("ca") && certs[5] == PemName(node) && certs[6] == KeyName(node);
    assert CopiedOne(t, KUBE_DIR, d, "certificates/", certs[0]) && CopiedOne(t, KUBE_DIR, d, "certificates/", certs[5]);
    assert CopiedOne(t, KUBE_DIR, d, "certificates/", certs[6]);
    assert CopiedOne(t, KUBE_DIR, d, "kubeconfigs/", kubeconfigs[0]) && CopiedOne(t, KUBE_DIR, d, "kubeconfigs/", kubeconfigs[1]);
  }

  lemma HasAllJoin(t: Nodes, a: seq<string>, b: seq<string>)
    requires HasAll(t, a) && HasAll(t, b)
    ensures HasAll(t, a + b)
  {
  }

  lemma HasAllMember(t: Nodes, paths: seq<string>, p: string)
    requires HasAll(t, paths) && p in paths
    ensures HasAll(t, [p])
  {
  }

  /** A service that needs no environment file is ready once its files are there and it can be trusted. */
  lemma ReadyWith(t: Nodes, container: string, service: Service, more: seq<string>)
    requires NamedFiles(service, container) == [UnitPath(service)] + more && EnvFile(service).None?
    requires HasAll(t, [UnitPath(service)]) && HasAll(t, more) && Trusted(t, container, service)
    ensures ReadyIn(t, container, service)
  {
    HasAllJoin(t, [UnitPath(service)], more);
  }

  lemma KubeletNames(container: string)
    ensures var node := ToLower(container);
            NamedFiles(Kubelet, container) == [UnitPath(Kubelet)] + ([KUBE_CONFIG_DIR + "kubelet.yaml"] + [KUBE_DIR + KubeletConfigName(node)] + KubeletConfigFiles(node))
    ensures NamedFiles(KubeProxy, container) == [UnitPath(KubeProxy)] + [KUBE_DIR + "kube-proxy.kubeconfig"]
    ensures NamedFiles(Crio, container) == [UnitPath(Crio)] + []
  {
    var node := ToLower(container);
    assert KubeletUnitFiles(node) == [KUBE_CONFIG_DIR + "kubelet.yaml"] + [KUBE_DIR + KubeletConfigName(node)];
  }

  /** With these files in place crio, the kubelet and the proxy are ready to be started. */
  lemma NodeReady(t: Nodes, d: ClusterDir, container: string, server: string)
    requires NodeSecrets(t, d, ToLower(container)) && NodeConfigured(d, ToLower(container), server) && NodeCertified(d, ToLower(container))
    requires HasAll(t, RoleFiles(Worker)) && HasAll(t, [KUBE_CONFIG_DIR + "kubelet.yaml"]) && HasAll(t, [UnitPath(Kubelet)])
    ensures ReadyIn(t, container, Kubelet) && ReadyIn(t, container, KubeProxy) && ReadyIn(t, container, Crio)
  {
    var node := ToLower(container);
    SecretsAreThere(t, d, node);
    UnitsThere(t);
    NodeTrusted(t, d, node, server);
    KubeletNames(container);
    HasAllJoin(t, [KUBE_CONFIG_DIR + "kubelet.yaml"], [KUBE_DIR + KubeletConfigName(node)]);
    HasAllJoin(t, [KUBE_CONFIG_DIR + "kubelet.yaml"] + [KUBE_DIR + KubeletConfigName(node)], KubeletConfigFiles(node));
    ReadyWith(t, container, Kubelet, [KUBE_CONFIG_DIR + "kubelet.yaml"] + [KUBE_DIR + KubeletConfigName(node)] + KubeletConfigFiles(node));
    ReadyWith(t, container, KubeProxy, [KUBE_DIR + "kube-proxy.kubeconfig"]);
    ReadyWith(t, container, Crio, []);
  }

  lemma UnitsThere(t: Nodes)
    requires HasAll(t, RoleFiles(Worker))
    ensures HasAll(t, [UnitPath(Crio)]) && HasAll(t, [UnitPath(KubeProxy)])
  {
    assert RoleFiles(Worker)[0] == UnitPath(Crio) && RoleFiles(Worker)[1] == UnitPath(KubeProxy);
  }

  lemma NodeTrusted(t: Nodes, d: ClusterDir, node: string, server: string)
    requires NodeSecrets(t, d, node) && NodeConfigured(d, node, server) && NodeCertified(d, node)
    ensures HoldsPair(t, KUBE_DIR, NodeIdentity(node)) && HoldsConfig(t, KubeletConfigName(node), NodeUser(node), NodeIdentity(node))
    ensures HoldsConfig(t, "kube-proxy.kubeconfig", "kube-proxy", BASE_IDENTITIES[4])
  {
    NodeConfigsOpen(d, node, server);
    var certs, kubeconfigs := WorkerCerts(node), WorkerKubeconfigs(node);
    assert certs[0] == PemName("ca") && certs[5] == PemName(node) && certs[6] == KeyName(node);
    PairCopied(t, KUBE_DIR, d, certs, NodeIdentity(node));
    ConfigCopied(t, d, certs, kubeconfigs, kubeconfigs[1], server, NodeUser(node), NodeIdentity(node));
    ConfigCopied(t, d, certs, kubeconfigs, kubeconfigs[0], server, "kube-proxy", BASE_IDENTITIES[4]);
  }

  /** Everything configureWorker reads for a node. */
  predicate CanJoin(d: ClusterDir, node: string) {
    && CanConfigure(d, "kube-proxy") && CanConfigure(d, node)
    && HasPair(d, "ca") && HasPair(d, "etcd") && CertPath(PemName("ca-etcd")) in d.files
  }

  lemma WorkerCertsLocal(d: ClusterDir, node: string)
    ensures HasLocal(d, "certificates/", WorkerCerts(node)) <==>
            HasPair(d, "ca") && HasPair(d, "etcd") && CertPath(PemName("ca-etcd")) in d.files && HasPair(d, node)
  {
    var f := WorkerCerts(node);
    assert f[0] == PemName("ca") && f[1] == KeyName("ca") && f[2] == PemName("etcd") && f[3] == KeyName("etcd");
    assert f[4] == PemName("ca-etcd") && f[5] == PemName(node) && f[6] == KeyName(node);
    if HasLocal(d, "certificates/", f) {
      assert "certificates/" + f[0] in d.files && "certificates/" + f[1] in d.files && "certificates/" + f[2] in d.files;
      assert "certificates/" + f[3] in d.files && "certificates/" + f[4] in d.files;
      assert "certificates/" + f[5] in d.files && "certificates/" + f[6] in d.files;
    }
  }

  lemma WorkerKubeconfigsLocal(d: ClusterDir, node: string)
    requires KubeconfigPath("kube-proxy.kubeconfig") in d.files && KubeconfigPath(KubeletConfigName(node)) in d.files
    ensures HasLocal(d, "kubeconfigs/", WorkerKubeconfigs(node))
  {
  }
}
