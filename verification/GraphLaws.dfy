/** What the declared graph says, resource by resource and in so many words: which
    resources there are and what each waits for. */
module GraphLaws {
  import opened Units
  import opened Graph
  import opened Executor

  /** m waits for d in the graph g. */
  ghost predicate Waits(g: map<Node, Resource>, m: Node, d: Node) {
    m in g && (d in g[m].dependsOn || d in g[m].uses)
  }

  // ---- Which resources there are ----

  lemma MachineResourcesAre(s: Site, w: Variant, g: map<Node, Resource>, v: nat)
    requires IsGraph(s, w, g)
    ensures var there := v < |Vms(s.unit.config)|;
            && (Disk(v) in g <==> there) && (CloudInit(v) in g <==> there) && (Domain(v) in g <==> there)
            && (SshKey(v) in g <==> there) && (CopyRemote(v) in g <==> there) && (RemoteOk(v) in g <==> there)
            && (Motd(v) in g <==> there)
  {
  }

  lemma PackageResourcesAre(s: Site, w: Variant, g: map<Node, Resource>, v: nat, k: nat)
    requires IsGraph(s, w, g)
    ensures var there := v < |Vms(s.unit.config)|;
            && (ZypperIn(v) in g <==> there && s.unit.online) && (EnableIscsi(v) in g <==> there && s.unit.online)
            && (CiLog(v, k) in g <==> there && k < 2)
  {
  }

  lemma InputResourcesAre(s: Site, w: Variant, g: map<Node, Resource>, v: nat, f: nat)
    requires IsGraph(s, w, g)
    ensures CopyInput(v, f) in g <==> v < |Vms(s.unit.config)| && f < |s.inputs| && s.inputs[f].dest != ""
    ensures InstallInput(v, f) in g <==> v < |Vms(s.unit.config)| && f < |s.inputs| && s.inputs[f].dest != ""
  {
  }

  lemma UnitResourcesAre(s: Site, w: Variant, g: map<Node, Resource>, c: nat)
    requires IsGraph(s, w, g)
    ensures SshConfig in g && (BaseVolume(c) in g <==> c < |s.unit.config|)
    ensures (K8sPrime in g <==> s.unit.kind == "k8s") && (KubeConfig in g <==> s.unit.kind == "k8s")
  {
  }

  lemma AdminsAre(s: Site, w: Variant, g: map<Node, Resource>, v: nat)
    requires IsGraph(s, w, g)
    ensures Admin(v) in g <==>
              && s.unit.kind == "k8s" && v < |Vms(s.unit.config)|
              && s.unit.config[Vms(s.unit.config)[v].config].name == "default" && Vms(s.unit.config)[v].idx != 0
  {
    GroupIs(s.unit.config, "default", v);
  }

  lemma WorkersAre(s: Site, w: Variant, g: map<Node, Resource>, v: nat)
    requires IsGraph(s, w, g)
    ensures Worker(v) in g <==>
              && s.unit.kind == "k8s" && v < |Vms(s.unit.config)|
              && s.unit.config[Vms(s.unit.config)[v].config].name == "agent"
  {
    GroupIs(s.unit.config, "agent", v);
  }

  lemma HelmResourcesAre(s: Site, w: Variant, g: map<Node, Resource>, i: nat)
    requires IsGraph(s, w, g)
    ensures var runs := s.unit.online && s.unit.name == "upstream" && !s.noHelmfile && i < |s.unit.helmfiles|;
            && (Apply(i) in g <==> runs)
            && (VipHack(i) in g <==> runs && (s.unit.helmfiles[i] == "ai" || s.unit.helmfiles[i] == "nexus"))
            && (VipConfig(i) in g <==> runs && s.unit.helmfiles[i] == "kube-vip")
  {
  }

  // ---- What each waits for ----

  lemma MachineWaitsAre(s: Site, w: Variant, g: map<Node, Resource>, v: nat, d: Node)
    requires IsGraph(s, w, g) && v < |Vms(s.unit.config)|
    ensures Waits(g, Disk(v), d) <==> d == BaseVolume(Vms(s.unit.config)[v].config)
    ensures !Waits(g, CloudInit(v), d)
    ensures Waits(g, Domain(v), d) <==> d == Disk(v) || d == CloudInit(v)
    ensures Waits(g, SshKey(v), d) <==> d == Domain(v)
    ensures Waits(g, CopyRemote(v), d) <==> d == SshKey(v) || d == Domain(v)
    ensures Waits(g, RemoteOk(v), d) <==> d == SshKey(v) || d == CopyRemote(v) || d == Domain(v)
    ensures Waits(g, Motd(v), d) <==> d == SshKey(v) || d == Domain(v)
  {
  }

  lemma InputWaitsAre(s: Site, w: Variant, g: map<Node, Resource>, v: nat, f: nat, d: Node)
    requires IsGraph(s, w, g) && v < |Vms(s.unit.config)| && f < |s.inputs| && s.inputs[f].dest != ""
    ensures Waits(g, CopyInput(v, f), d) <==> d == Domain(v)
    ensures Waits(g, InstallInput(v, f), d) <==> d == CopyInput(v, f) || d == Domain(v)
  {
  }

  /** d sets up one of the first n machines: its remote binary answers, its motd is
      written, or an input with a destination is installed. */
  predicate SetsUpBefore(s: Site, n: nat, d: Node) {
    || (d.RemoteOk? && d.vm < n) || (d.Motd? && d.vm < n)
    || (d.InstallInput? && d.vm < n && d.file < |s.inputs| && s.inputs[d.file].dest != "")
  }

  /** And in terms of the resources themselves. */
  lemma SetsUpBeforeIs(s: Site, n: nat, v: nat, f: nat)
    ensures SetsUpBefore(s, n, RemoteOk(v)) <==> v < n
    ensures SetsUpBefore(s, n, Motd(v)) <==> v < n
    ensures SetsUpBefore(s, n, InstallInput(v, f)) <==> v < n && f < |s.inputs| && s.inputs[f].dest != ""
    ensures forall d :: SetsUpBefore(s, n, d) ==> d.RemoteOk? || d.Motd? || d.InstallInput?
  {
  }

  lemma PackageWaitsAre(s: Site, w: Variant, g: map<Node, Resource>, v: nat, k: nat, d: Node)
    requires IsGraph(s, w, g) && v < |Vms(s.unit.config)|
    ensures s.unit.online ==>
              (Waits(g, ZypperIn(v), d) <==> SetsUpBefore(s, v, d) || d == RemoteOk(v) || d == Domain(v))
    ensures s.unit.online ==> (Waits(g, EnableIscsi(v), d) <==> d == ZypperIn(v) || d == Domain(v))
    ensures k < 2 ==> (Waits(g, CiLog(v, k), d) <==> SetsUpBefore(s, v, d) || d == RemoteOk(v) || d == Domain(v))
  {
    InVmDeps(s.inputs, w.reset, v, d);
  }

  lemma SshConfigWaitsAre(s: Site, w: Variant, g: map<Node, Resource>, d: Node)
    requires IsGraph(s, w, g)
    ensures var n := |Vms(s.unit.config)|;
            Waits(g, SshConfig, d) <==> SetsUpBefore(s, n, d) || (d.Domain? && d.vm < n)
  {
    InVmDeps(s.inputs, w.reset, |Machines(s)|, d);
    if d.Domain? && d.vm < |Machines(s)| {
      assert Domains(|Machines(s)|)[d.vm] == d;
    }
  }

  lemma PrimeInstallWaitsAre(s: Site, w: Variant, g: map<Node, Resource>, d: Node)
    requires IsGraph(s, w, g) && s.unit.kind == "k8s"
    ensures Waits(g, K8sPrime, d) <==>
              || SetsUpBefore(s, |Vms(s.unit.config)|, d)
              || (d.Domain? && PrimeOf(s.unit.config) == Some(d.vm))
  {
    InVmDeps(s.inputs, w.reset, |Machines(s)|, d);
  }

  lemma KubeConfigWaitsAre(s: Site, g: map<Node, Resource>, d: Node)
    requires IsGraph(s, INTENDED, g) && s.unit.kind == "k8s"
    ensures Waits(g, KubeConfig, d) <==>
              || SetsUpBefore(s, |Vms(s.unit.config)|, d) || d == K8sPrime
              || (d.Domain? && PrimeOf(s.unit.config) == Some(d.vm))
  {
    InVmDeps(s.inputs, false, |Machines(s)|, d);
  }

  lemma JoinWaitsAre(s: Site, g: map<Node, Resource>, m: Node, d: Node)
    requires IsGraph(s, INTENDED, g) && (m.Admin? || m.Worker?) && m in g
    ensures var n := |Vms(s.unit.config)|;
            var prime := d.Domain? && PrimeOf(s.unit.config) == Some(d.vm);
            Waits(g, m, d) <==> SetsUpBefore(s, n, d) || d == K8sPrime || prime || d == Domain(m.vm)
  {
    InVmDeps(s.inputs, false, |Machines(s)|, d);
  }

  /** d is an install of the cluster, a package, or what an earlier helmfile left to wait for. */
  predicate ComesBefore(s: Site, i: nat, d: Node) {
    var cs := s.unit.config;
    var vms := Vms(cs);
    || (s.unit.kind == "k8s"
        && (d.K8sPrime?
            || (d.Admin? && d.vm < |vms| && cs[vms[d.vm].config].name == "default" && vms[d.vm].idx != 0)
            || (d.Worker? && d.vm < |vms| && cs[vms[d.vm].config].name == "agent")))
    || (s.unit.online && (d.ZypperIn? || d.EnableIscsi?) && d.vm < |vms|)
    || (d.Apply? && d.step < i)
    || (d.VipHack? && d.step < i && d.step < |s.unit.helmfiles|
        && (s.unit.helmfiles[d.step] == "ai" || s.unit.helmfiles[d.step] == "nexus"))
    || (d.VipConfig? && d.step < i && d.step < |s.unit.helmfiles| && s.unit.helmfiles[d.step] == "kube-vip")
  }

  lemma BeforeStepIs(s: Site, i: nat, d: Node)
    requires i <= |s.unit.helmfiles|
    ensures BeforeStep(s, i, d) <==> SetsUpBefore(s, |Vms(s.unit.config)|, d) || ComesBefore(s, i, d)
  {
    if d.Admin? || d.Worker? {
      GroupIs(s.unit.config, "default", d.vm);
      GroupIs(s.unit.config, "agent", d.vm);
    }
  }

  lemma HelmWaitsAre(s: Site, w: Variant, g: map<Node, Resource>, i: nat, d: Node)
    requires IsGraph(s, w, g) && Apply(i) in g
    ensures var before := SetsUpBefore(s, |Vms(s.unit.config)|, d) || ComesBefore(s, i, d);
            && (Waits(g, Apply(i), d) <==> before)
            && (VipHack(i) in g ==>
                  (Waits(g, VipHack(i), d) <==> before || (d.Domain? && PrimeOf(s.unit.config) == Some(d.vm))))
  {
    HelmDepsHold(s, w, i);
    BeforeStepIs(s, i, d);
  }

  /** The rewritten kubeconfig waits for the prime install, if any, but not for its own apply. */
  lemma VipConfigWaitsAre(s: Site, g: map<Node, Resource>, i: nat, d: Node)
    requires IsGraph(s, INTENDED, g) && VipConfig(i) in g
    ensures Waits(g, VipConfig(i), d) <==>
              || SetsUpBefore(s, |Vms(s.unit.config)|, d) || (d == K8sPrime && s.unit.kind == "k8s")
              || (d.Domain? && PrimeOf(s.unit.config) == Some(d.vm))
  {
    InVmDeps(s.inputs, false, |Machines(s)|, d);
  }
}
