/**
  The directories lxdk pushes files into, and room for those files: nothing but
  directories on the way, and no directory where a file is to go.
 */
module Rooms {
  import opened Text
  import opened Paths
  import opened Trees

  const KUBE_DIR := "/etc/kubernetes/"
  const KUBE_CONFIG_DIR := "/etc/kubernetes/config/"
  const ETCD_DIR := "/etc/etcd/"
  const LXDK_DIR := "/etc/lxdk/"
  const CONTAINERS_DIR := "/etc/containers/"
  const UNIT_DIR := "/etc/systemd/system/"

  /** A directory path written with its trailing slash. */
  predicate IsFolder(dir: string) {
    dir != "" && dir[|dir| - 1] == '/'
  }

  /** The directories lxdk pushes files into. */
  predicate PushDir(dir: string) {
    || dir == KUBE_DIR || dir == KUBE_CONFIG_DIR || dir == ETCD_DIR || dir == LXDK_DIR || dir == CONTAINERS_DIR || dir == UNIT_DIR
  }

  /** The names of the files lxdk pushes: certificates and keys, kubeconfigs, environment and settings. */
  predicate PushedName(name: string) {
    && ProperName(name)
    && (HasSuffix(name, ".pem") || HasSuffix(name, ".kubeconfig")
        || name == "env" || name == "registries.conf" || name == "kubelet.yaml" || name == "kubelet.service")
  }

  lemma PushDirs(dir: string)
    requires PushDir(dir)
    ensures IsFolder(dir) && dir[0] == '/' && '.' !in dir && 'v' !in dir
  {
  }

  lemma PushedMarked(name: string)
    requires PushedName(name)
    ensures '.' in name || 'v' in name
  {
    if HasSuffix(name, ".pem") {
      assert name[|name| - 4] == '.';
    } else if HasSuffix(name, ".kubeconfig") {
      assert name[|name| - 11] == '.';
    } else {
      SettingsMarked(name);
    }
  }

  lemma SettingsMarked(name: string)
    requires name == "env" || name == "registries.conf" || name == "kubelet.yaml" || name == "kubelet.service"
    ensures '.' in name || 'v' in name
  {
    if name == "env" {
      assert name[2] == 'v';
    } else if name == "registries.conf" {
      assert name[10] == '.';
    } else {
      assert name[7] == '.';
    }
  }

  // ---- names that no path to a directory holds ----

  lemma {:induction false} ResolvedFromParts(parts: seq<string>)
    ensures forall x | x in Resolve(parts) :: x in parts
  {
    if parts != [] {
      FrontAndLast(parts);
      ResolvedFromParts(parts[..|parts| - 1]);
    }
  }

  lemma LastFromParts(parts: seq<string>, p: seq<string>, name: string)
    requires Resolve(parts) == p + [name]
    ensures name in parts
  {
    ResolvedFromParts(parts);
    assert (p + [name])[|p|] == name;
  }

  lemma {:induction false} PartsFromText(s: string)
    ensures forall i | 0 <= i < |Split(s, "/")| :: forall ch | ch in Split(s, "/")[i] :: ch in s
    decreases |s|
  {
    var k := Index(s, "/");
    if k != -1 {
      var rest := s[k + 1..];
      PartsFromText(rest);
      assert Split(s, "/") == [s[..k]] + Split(rest, "/");
    }
  }

  /** A name with a character the path does not have is none of its components, so no place along the path ends in it. */
  lemma NotAlong(dir: string, p: seq<string>, name: string, ch: char)
    requires ch !in dir && ch in name
    ensures !Along(Parts(dir), p + [name])
  {
    PartsFromText(dir);
    NonEmptyMembers(Split(dir, "/"));
    assert name !in Parts(dir);
    forall k | 0 <= k <= |Parts(dir)|
      ensures Place(Parts(dir), k) != p + [name]
    {
      if Place(Parts(dir), k) == p + [name] {
        LastFromParts(Parts(dir)[..k], p, name);
      }
    }
  }

  lemma PushedNotAlong(dir: string, p: seq<string>, name: string)
    requires PushDir(dir) && PushedName(name)
    ensures !Along(Parts(dir), p + [name])
  {
    PushDirs(dir);
    PushedMarked(name);
    NotAlong(dir, p, name, if '.' in name then '.' else 'v');
  }

  // ---- room ----

  /** There is room for every file lxdk pushes. */
  ghost predicate Roomy(t: Nodes) {
    forall u: Nodes | u == t :: HasPlaces(u)
  }

  /** The same, written out. */
  ghost predicate HasPlaces(t: Nodes) {
    && (forall dir | PushDir(dir) :: Clear(t, Parts(dir)))
    && (forall dir, name | PushDir(dir) && PushedName(name) :: !IsDir(t, Locate(dir) + [name]))
  }

  /** Where there is room a file can be put once its directory has been made. */
  lemma RoomToPut(t: Nodes, dir: string, name: string)
    requires WfTree(t) && Roomy(t) && PushDir(dir) && PushedName(name)
    ensures Clear(t, Parts(dir)) && CanPut(MakeAll(t, Parts(dir)), Locate(dir) + [name])
  {
    assert HasPlaces(t);
    var p := Locate(dir) + [name];
    MakeAllAdds(t, Parts(dir));
    MakeAllDirs(t, Parts(dir));
    PushedNotAlong(dir, Locate(dir), name);
    assert Parts(dir)[..|Parts(dir)|] == Parts(dir);
    assert Locate(dir) == Place(Parts(dir), |Parts(dir)|) && p[..|p| - 1] == Locate(dir);
  }

  /** Directories on the way to one place and a file at it leave room for all others. */
  lemma RoomStays(t: Nodes, u: Nodes, dir: string, name: string)
    requires Roomy(t) && PushDir(dir) && PushedName(name) && Touches(t, u, Parts(dir), Locate(dir) + [name])
    ensures Roomy(u)
  {
    assert HasPlaces(t);
    var target := Locate(dir) + [name];
    forall d | PushDir(d)
      ensures Clear(u, Parts(d))
    {
      forall k | 0 <= k <= |Parts(d)|
        ensures Free(u, Place(Parts(d), k))
      {
        PushedNotAlong(d, Locate(dir), name);
        assert Free(t, Place(Parts(d), k));
      }
    }
    forall d, n | PushDir(d) && PushedName(n)
      ensures !IsDir(u, Locate(d) + [n])
    {
      PushedNotAlong(dir, Locate(d), n);
    }
    assert HasPlaces(u);
  }
}
