/** Which machine bootstraps the cluster: the commands Unit gives to machines and
    the configs those commands write. */
module Cluster {
  import opened Units
  import opened Graph
  import opened Images
  import opened RemoteCmd
  import opened Executor
  import opened UnitBuilder
  import opened Capacity
  import opened RoomTable
  import opened GoGrowth
  import opened GoSlices

  predicate IsClusterInstall(m: Node) {
    m.K8sPrime? || m.Admin? || m.Worker?
  }

  /** The machine an install runs on. */
  function RunsOn(s: Site, m: Node): Option<nat>
    requires IsClusterInstall(m)
  {
    match m
    case K8sPrime => Prime(s)
    case Admin(v) => Some(v)
    case Worker(v) => Some(v)
  }

  /** The arguments of an install; ip gives the address of each machine, and the
      vip argument is the address and the name of the first network host. */
  function InstallArgs(s: Site, ip: nat -> string, vipIp: string, vipFqdn: string, m: Node): K8sArgs
    requires IsClusterInstall(m) && Prime(s).Some?
  {
    match m
    case K8sPrime => K8sArgs(true, false, "", vipIp + ":" + vipFqdn)
    case Admin(_) => K8sArgs(false, false, ip(Prime(s).value), vipIp + ":" + vipFqdn)
    case Worker(_) => K8sArgs(false, true, ip(Prime(s).value), "")
  }

  predicate InCluster(s: Site, v: nat)
    requires v < |Machines(s)|
  {
    IsNamed(s.unit.config, Machines(s)[v], "default") || IsNamed(s.unit.config, Machines(s)[v], "agent")
  }

  lemma PrimeIsFirstDefault(s: Site)
    requires Prime(s).Some?
    ensures Prime(s).value < |Machines(s)| && IsFirstDefault(s.unit.config, Machines(s)[Prime(s).value])
  {
    PrimeIsLastFirstDefault(s.unit.config);
    assert PrimeOf(s.unit.config) == Some(Prime(s).value);
  }

  ghost predicate HasInstall(s: Site, g: map<Node, Resource>, v: nat) {
    exists m :: m in g && IsClusterInstall(m) && RunsOn(s, m) == Some(v)
  }

  /** A machine of the cluster has an install if it is the prime or filed. */
  lemma HasInstallExactly(s: Site, w: Variant, g: map<Node, Resource>, v: nat)
    requires IsGraph(s, w, g) && IsK8s(s) && v < |Machines(s)| && InCluster(s, v)
    ensures HasInstall(s, g, v) <==> Prime(s) == Some(v) || !IsFirstDefault(s.unit.config, Machines(s)[v])
  {
    var cs := s.unit.config;
    GroupHoldsExactly(cs, "default");
    GroupHoldsExactly(cs, "agent");
    assert K8sPrime in g;
    if Prime(s) == Some(v) {
      assert RunsOn(s, K8sPrime) == Some(v);
    } else if !IsFirstDefault(cs, Machines(s)[v]) {
      var m := if IsNamed(cs, Machines(s)[v], "default") then Admin(v) else Worker(v);
      assert m in g && RunsOn(s, m) == Some(v);
    }
  }

  /** Every machine of the cluster has an install if and only if the prime and the lists
      cover them all. */
  lemma ClusterCoveredExactly(s: Site, w: Variant, g: map<Node, Resource>)
    requires IsGraph(s, w, g) && IsK8s(s)
    ensures (forall v: nat :: v < |Machines(s)| && InCluster(s, v) ==> HasInstall(s, g, v)) <==>
              OneDefault(s.unit.config)
  {
    var cs := s.unit.config;
    VmsConserved(cs);
    forall v: nat | v < |Machines(s)| ensures Kept(cs, v) <==> (InCluster(s, v) ==> HasInstall(s, g, v)) {
      GroupHoldsExactly(cs, cs[Machines(s)[v].config].name);
      if InCluster(s, v) {
        HasInstallExactly(s, w, g, v);
      }
    }
  }

  /** In a unit that completes, exactly the "default" and "agent" machines get an install. */
  lemma InstallsCoverCluster(s: Site, dir: Directory, w: Variant, g: map<Node, Resource>, v: nat)
    requires IsGraph(s, w, g) && IsK8s(s) && Completes(dir, s.unit.config) && v < |Machines(s)|
    ensures HasInstall(s, g, v) <==> InCluster(s, v)
    ensures (K8sPrime in g && PrimeOf(s.unit.config) == Some(v)) || Admin(v) in g || Worker(v) in g <==>
              var name := s.unit.config[Vms(s.unit.config)[v].config].name; name == "default" || name == "agent"
  {
    CompletedAreDistinct(dir, s.unit.config);
    ClusterCoveredExactly(s, w, g);
    if HasInstall(s, g, v) {
      var m :| m in g && IsClusterInstall(m) && RunsOn(s, m) == Some(v);
      InstallsStayInCluster(s, w, g, m);
    }
    GroupIs(s.unit.config, "default", v);
    GroupIs(s.unit.config, "agent", v);
    CompletedHasOnePrime(dir, s.unit.config, v);
  }

  /** No machine gets two installs. */
  lemma OneInstallAtMost(s: Site, w: Variant, g: map<Node, Resource>, m: Node, n: Node)
    requires IsGraph(s, w, g) && m in g && n in g && IsClusterInstall(m) && IsClusterInstall(n)
    requires RunsOn(s, m).Some? && RunsOn(s, m) == RunsOn(s, n)
    ensures m == n
  {
    var cs := s.unit.config;
    GroupHoldsExactly(cs, "default");
    GroupHoldsExactly(cs, "agent");
    if Prime(s).Some? {
      PrimeIsFirstDefault(s);
    }
  }

  /** Installs run on "default" and "agent" machines only, and on the prime the first alone. */
  lemma InstallsStayInCluster(s: Site, w: Variant, g: map<Node, Resource>, m: Node)
    requires IsGraph(s, w, g) && m in g && IsClusterInstall(m) && RunsOn(s, m).Some?
    ensures RunsOn(s, m).value < |Machines(s)| && InCluster(s, RunsOn(s, m).value)
    ensures RunsOn(s, m) == Prime(s) <==> m == K8sPrime
  {
    var cs := s.unit.config;
    GroupHoldsExactly(cs, "default");
    GroupHoldsExactly(cs, "agent");
    if Prime(s).Some? {
      PrimeIsFirstDefault(s);
    }
  }

  /** A config is a worker's, with nothing but the server, or a control-plane node's with its settings. */
  lemma ControlPlaneLines(a: K8sArgs)
    requires Renders(a)
    ensures a.worker && !a.prime ==>
              ConfigLines(a) == ["---", "token: bootstraptoken", "server: https://" + a.upstream + ":9345"]
    ensures !a.worker ==> "write-kubeconfig-mode: \"0644\"" in ConfigLines(a)
    ensures !a.worker && a.vip != "" ==> "tls-san:" in ConfigLines(a)
  {
    ConfigIs(a);
    if !a.worker {
      assert ConfigLines(a)[2] == "write-kubeconfig-mode: \"0644\"";
      assert a.vip != "" ==> ConfigLines(a)[9] == "tls-san:";
    }
  }

  /** Exactly one bootstrap node: the config written on a machine joins nobody if
      and only if the machine is the prime, and otherwise joins the prime. Control
      planes list the vip's name and address, provided neither holds a colon;
      workers list nothing. */
  lemma OneBootstrap(s: Site, w: Variant, g: map<Node, Resource>,
                     ip: nat -> string, vipIp: string, vipFqdn: string, m: Node)
    requires IsGraph(s, w, g) && Prime(s).Some? && m in g && IsClusterInstall(m)
    ensures var a := InstallArgs(s, ip, vipIp, vipFqdn, m);
            && Renders(a)
            && Servers(ConfigLines(a)) == (if RunsOn(s, m) == Prime(s) then [] else [ServerLine(ip(Prime(s).value))])
            && (m.K8sPrime? ==> Servers(ConfigLines(a)) == [])
            && (!m.K8sPrime? ==> |Servers(ConfigLines(a))| == 1
                                 && UpstreamOf(Servers(ConfigLines(a))[0]) == Some(ip(Prime(s).value)))
            && (m.Worker? ==> ConfigLines(a) == ["---", "token: bootstraptoken",
                                                 "server: https://" + ip(Prime(s).value) + ":9345"])
            && (!m.Worker? ==> "write-kubeconfig-mode: \"0644\"" in ConfigLines(a) && "tls-san:" in ConfigLines(a))
            && (m.Worker? ==> Sans(ConfigLines(a)) == [])
            && (!m.Worker? ==> (Sans(ConfigLines(a)) == [vipFqdn, vipIp] <==> ':' !in vipIp && ':' !in vipFqdn))
  {
    var a := InstallArgs(s, ip, vipIp, vipFqdn, m);
    InstallsStayInCluster(s, w, g, m);
    assert (vipIp + ":" + vipFqdn)[|vipIp|] == ':';
    VipRoundTrip(vipIp, vipFqdn);
    ConfigRoles(a);
    ConfigNamesUpstream(a);
    ControlPlaneLines(a);
  }

  /** Prime before join, with its exact condition on memory: in every run the prime
      install is done before a node joins if and only if appending the k8s slice to
      vmDepends does not happen in place. */
  lemma JoinOrderedExactly(x: Setting, grow: Growth, g: map<Node, Resource>, m: Node)
    requires IsGraph(x.site, Read(x.site, grow), g) && (m.Admin? || m.Worker?) && m in g
    ensures (forall steps :: IsRun(x, g, steps) ==> Precedes(steps, K8sPrime, m)) <==> !HasRoom(x.site, grow)
  {
    SlicesKeptExactly(x.site, grow, g);
    if !HasRoom(x.site, grow) {
      assert WaitsFor(g[m], K8sPrime);
      forall steps | IsRun(x, g, steps) ensures Precedes(steps, K8sPrime, m) {
        EdgePrecedes(x, g, steps, K8sPrime, m);
      }
    } else {
      var steps := ForkedJoinIsUnordered(x, Read(x.site, grow), g, m);
      var j :| 0 <= j < |steps| && steps[j] == Start(m);
      DoneWasStarted(x, g, steps);
      assert K8sPrime in Done(steps[..j]) ==> K8sPrime in Done(steps);
      assert !Precedes(steps, K8sPrime, m);
    }
  }

  /** The same for Go's policy: a join is ordered after the prime unless the cluster's
      numbers of inputs sent and of machines are in the table. */
  lemma GoJoinOrderedExactly(x: Setting, g: map<Node, Resource>, m: Node)
    requires IsGraph(x.site, Read(x.site, GoGrow), g) && (m.Admin? || m.Worker?) && m in g
    ensures (forall steps :: IsRun(x, g, steps) ==> Precedes(steps, K8sPrime, m)) <==>
              !IsRoomy(Sent(x.site.inputs, |x.site.inputs|), |Machines(x.site)|)
  {
    GoRoomExactly(x.site);
    JoinOrderedExactly(x, GoGrow, g, m);
  }
}
