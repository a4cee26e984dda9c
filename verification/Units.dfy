/** The variables the services' units expand, and which of them their environment files bind. */
module Units {
  import opened Text
  import opened Trees
  import opened Names
  import opened Wrappers
  import opened Worlds
  import opened Runs

  /** The variables a service's unit expands; the kubelet's is the one lxdk pushes, which has the node's name written out. */
  function Expanded(service: Service): seq<string> {
    match service
    case EtcdService => ["CONTAINER_NAME", "ETCD_IP"]
    case ApiServer => ["ADMISSION_PLUGINS", "ETCD_IP"]
    case _ => []
  }

  /** Some line of the environment file at the path binds the variable. */
  ghost predicate Binds(t: Nodes, path: string, v: string) {
    exists env, i :: Holds(t, path, env) && 0 <= i < |Bindings(env)| && HasPrefix(Bindings(env)[i], v + "=")
  }

  /** The service's unit found the variable bound when it was started. */
  ghost predicate Bound(s: ServiceStart, v: string) {
    EnvFile(s.service).Some? && Binds(s.tree, EnvFile(s.service).value, v)
  }

  /** An environment file with an etcd address binds ETCD_IP and neither of the other two. */
  lemma EtcdEnvBinds(t: Nodes, path: string, v: string)
    requires HoldsEtcdEnv(t, path) && v in ["CONTAINER_NAME", "ADMISSION_PLUGINS", "ETCD_IP"]
    ensures Binds(t, path, v) <==> v == "ETCD_IP"
  {
    var ip :| '\n' !in ip && Holds(t, path, EtcdEnv(ip));
    assert '\n' !in "ETCD_IP=";
    SplitSingle(EtcdEnv(ip), '\n');
    assert Bindings(EtcdEnv(ip)) == [EtcdEnv(ip)];
    if v == "ETCD_IP" {
      assert v + "=" == "ETCD_IP=";
      assert HasPrefix(Bindings(EtcdEnv(ip))[0], v + "=");
    } else {
      assert (v + "=")[0] != EtcdEnv(ip)[0];
    }
  }

  /**
    Whenever a service is started, of the variables its unit expands exactly
    ETCD_IP is bound. So etcd's unit runs without CONTAINER_NAME and the API
    server's without ADMISSION_PLUGINS, and all others have all they expand.
   */
  lemma VariablesBound(run: Run, i: nat, k: nat)
    requires i < |run.worlds| && k < |run.worlds[i].starts|
    ensures var s := run.worlds[i].starts[k];
            && (forall v | v in Expanded(s.service) :: Bound(s, v) <==> v == "ETCD_IP")
            && ((forall v | v in Expanded(s.service) :: Bound(s, v)) <==> s.service != EtcdService && s.service != ApiServer)
  {
    ServicesStartReady(run, i, k);
    var s := run.worlds[i].starts[k];
    if EnvFile(s.service).Some? {
      forall v | v in Expanded(s.service)
        ensures Bound(s, v) <==> v == "ETCD_IP"
      {
        EtcdEnvBinds(s.tree, EnvFile(s.service).value, v);
      }
      assert Expanded(s.service)[0] != "ETCD_IP" && Expanded(s.service)[0] in Expanded(s.service);
    }
  }
}
