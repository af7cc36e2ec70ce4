/** What holds in every run of a unit, resource by resource: the order on one machine,
    the barriers between machines, cluster and helmfiles, and what stays unordered. */
module RunLaws {
  import opened Units
  import opened Graph
  import opened GraphLaws
  import opened RemoteCmd
  import opened Executor

  lemma WaitPrecedes(x: Setting, g: map<Node, Resource>, steps: seq<Step>, a: Node, b: Node)
    requires IsRun(x, g, steps) && (b in g ==> Waits(g, b, a))
    ensures Precedes(steps, a, b)
  {
    EdgePrecedes(x, g, steps, a, b);
  }

  // ---- On one machine ----

  /** A machine comes up after its disks, and its disk after the volume of its config. */
  lemma MachineComesUp(x: Setting, w: Variant, g: map<Node, Resource>, steps: seq<Step>, v: nat)
    requires IsGraph(x.site, w, g) && IsRun(x, g, steps) && v < |Vms(x.site.unit.config)|
    ensures Precedes(steps, BaseVolume(Vms(x.site.unit.config)[v].config), Disk(v))
    ensures Precedes(steps, Disk(v), Domain(v)) && Precedes(steps, CloudInit(v), Domain(v))
  {
    EdgePrecedes(x, g, steps, BaseVolume(Vms(x.site.unit.config)[v].config), Disk(v));
    EdgePrecedes(x, g, steps, Disk(v), Domain(v));
    EdgePrecedes(x, g, steps, CloudInit(v), Domain(v));
  }

  /** On a machine that is up, the key is checked, then the remote binary is copied and
      then checked, and the motd is written. */
  lemma MachineInOrder(x: Setting, w: Variant, g: map<Node, Resource>, steps: seq<Step>, v: nat)
    requires IsGraph(x.site, w, g) && IsRun(x, g, steps)
    ensures Precedes(steps, SshKey(v), CopyRemote(v)) && Precedes(steps, SshKey(v), RemoteOk(v))
    ensures Precedes(steps, SshKey(v), Motd(v)) && Precedes(steps, CopyRemote(v), RemoteOk(v))
  {
    EdgePrecedes(x, g, steps, SshKey(v), CopyRemote(v));
    EdgePrecedes(x, g, steps, SshKey(v), RemoteOk(v));
    EdgePrecedes(x, g, steps, SshKey(v), Motd(v));
    EdgePrecedes(x, g, steps, CopyRemote(v), RemoteOk(v));
  }

  lemma MachineIsUpFirst(x: Setting, w: Variant, g: map<Node, Resource>, steps: seq<Step>, v: nat)
    requires IsGraph(x.site, w, g) && IsRun(x, g, steps)
    ensures Precedes(steps, Domain(v), SshKey(v)) && Precedes(steps, Domain(v), CopyRemote(v))
    ensures Precedes(steps, Domain(v), RemoteOk(v)) && Precedes(steps, Domain(v), Motd(v))
  {
    EdgePrecedes(x, g, steps, Domain(v), SshKey(v));
    EdgePrecedes(x, g, steps, Domain(v), CopyRemote(v));
    EdgePrecedes(x, g, steps, Domain(v), RemoteOk(v));
    EdgePrecedes(x, g, steps, Domain(v), Motd(v));
  }

  /** An input is copied to a running machine, and installed after it is copied. */
  lemma InputInOrder(x: Setting, w: Variant, g: map<Node, Resource>, steps: seq<Step>, v: nat, f: nat)
    requires IsGraph(x.site, w, g) && IsRun(x, g, steps)
    ensures Precedes(steps, Domain(v), CopyInput(v, f)) && Precedes(steps, Domain(v), InstallInput(v, f))
    ensures Precedes(steps, CopyInput(v, f), InstallInput(v, f))
  {
    InputResourcesAre(x.site, w, g, v, f);
    if CopyInput(v, f) in g {
      forall d { InputWaitsAre(x.site, w, g, v, f, d); }
    }
    WaitPrecedes(x, g, steps, Domain(v), CopyInput(v, f));
    WaitPrecedes(x, g, steps, Domain(v), InstallInput(v, f));
    WaitPrecedes(x, g, steps, CopyInput(v, f), InstallInput(v, f));
  }

  /** Packages are installed, and logs fetched, once the machine's remote binary
      answers; iscsid is enabled after its package is there. */
  lemma PackagesInOrder(x: Setting, w: Variant, g: map<Node, Resource>, steps: seq<Step>, v: nat, k: nat)
    requires IsGraph(x.site, w, g) && IsRun(x, g, steps)
    ensures Precedes(steps, RemoteOk(v), ZypperIn(v)) && Precedes(steps, RemoteOk(v), CiLog(v, k))
    ensures Precedes(steps, Domain(v), ZypperIn(v)) && Precedes(steps, Domain(v), CiLog(v, k))
    ensures Precedes(steps, Domain(v), EnableIscsi(v)) && Precedes(steps, ZypperIn(v), EnableIscsi(v))
  {
    PackageResourcesAre(x.site, w, g, v, k);
    if v < |Vms(x.site.unit.config)| {
      forall d { PackageWaitsAre(x.site, w, g, v, k, d); }
    }
    WaitPrecedes(x, g, steps, RemoteOk(v), ZypperIn(v));
    WaitPrecedes(x, g, steps, RemoteOk(v), CiLog(v, k));
    WaitPrecedes(x, g, steps, Domain(v), ZypperIn(v));
    WaitPrecedes(x, g, steps, Domain(v), CiLog(v, k));
    WaitPrecedes(x, g, steps, Domain(v), EnableIscsi(v));
    WaitPrecedes(x, g, steps, ZypperIn(v), EnableIscsi(v));
  }

  // ---- Barriers ----

  /** Machines are set up before the packages and logs of later ones. */
  lemma EarlierMachinesFirst(x: Setting, w: Variant, g: map<Node, Resource>, steps: seq<Step>,
                             u: nat, f: nat, v: nat, k: nat)
    requires IsGraph(x.site, w, g) && IsRun(x, g, steps) && u < v
    ensures Precedes(steps, RemoteOk(u), ZypperIn(v)) && Precedes(steps, RemoteOk(u), CiLog(v, k))
    ensures Precedes(steps, Motd(u), ZypperIn(v)) && Precedes(steps, Motd(u), CiLog(v, k))
    ensures f < |x.site.inputs| && x.site.inputs[f].dest != "" ==>
              Precedes(steps, InstallInput(u, f), ZypperIn(v)) && Precedes(steps, InstallInput(u, f), CiLog(v, k))
  {
    PackageResourcesAre(x.site, w, g, v, k);
    SetsUpBeforeIs(x.site, v, u, f);
    if v < |Vms(x.site.unit.config)| {
      forall d { PackageWaitsAre(x.site, w, g, v, k, d); }
    }
    forall a | SetsUpBefore(x.site, v, a) ensures Precedes(steps, a, ZypperIn(v)) && Precedes(steps, a, CiLog(v, k)) {
      WaitPrecedes(x, g, steps, a, ZypperIn(v));
      WaitPrecedes(x, g, steps, a, CiLog(v, k));
    }
  }

  /** b belongs to the unit as a whole, to its cluster or to a helmfile. */
  predicate IsOfUnit(b: Node) {
    || b == SshConfig || b == K8sPrime || b == KubeConfig || b.Admin? || b.Worker?
    || b.Apply? || b.VipHack? || b.VipConfig?
  }

  lemma IsOfUnitIs(v: nat, i: nat)
    ensures IsOfUnit(SshConfig) && IsOfUnit(K8sPrime) && IsOfUnit(KubeConfig)
    ensures IsOfUnit(Admin(v)) && IsOfUnit(Worker(v))
    ensures IsOfUnit(Apply(i)) && IsOfUnit(VipHack(i)) && IsOfUnit(VipConfig(i))
  {
  }

  /** The whole-unit barrier, resource by resource: before any of these starts, every
      machine is up, its key is checked, its remote binary is copied and answers, its
      motd is written, and every input with a destination is copied and installed. */
  lemma WholeSetupFirst(x: Setting, w: Variant, g: map<Node, Resource>, steps: seq<Step>, v: nat, f: nat, b: Node)
    requires IsGraph(x.site, w, g) && IsRun(x, g, steps) && v < |Vms(x.site.unit.config)| && IsOfUnit(b)
    ensures Precedes(steps, Domain(v), b) && Precedes(steps, SshKey(v), b) && Precedes(steps, CopyRemote(v), b)
    ensures Precedes(steps, RemoteOk(v), b) && Precedes(steps, Motd(v), b)
    ensures f < |x.site.inputs| && x.site.inputs[f].dest != "" ==>
              Precedes(steps, CopyInput(v, f), b) && Precedes(steps, InstallInput(v, f), b)
  {
    SetupPrecedes(x, w, g, steps, RemoteOk(v), b);
    SetupPrecedes(x, w, g, steps, Motd(v), b);
    MachineInOrder(x, w, g, steps, v);
    MachineIsUpFirst(x, w, g, steps, v);
    PrecedesTransitive(x, g, steps, CopyRemote(v), RemoteOk(v), b);
    PrecedesTransitive(x, g, steps, SshKey(v), RemoteOk(v), b);
    PrecedesTransitive(x, g, steps, Domain(v), RemoteOk(v), b);
    if f < |x.site.inputs| && x.site.inputs[f].dest != "" {
      SetupPrecedes(x, w, g, steps, InstallInput(v, f), b);
      InputInOrder(x, w, g, steps, v, f);
      PrecedesTransitive(x, g, steps, CopyInput(v, f), InstallInput(v, f), b);
    }
  }

  /** What connects to the prime follows the prime's domain. */
  lemma PrimeIsUpFirst(x: Setting, w: Variant, g: map<Node, Resource>, steps: seq<Step>, p: nat)
    requires IsGraph(x.site, w, g) && IsRun(x, g, steps) && PrimeOf(x.site.unit.config) == Some(p)
    ensures Precedes(steps, Domain(p), K8sPrime) && Precedes(steps, Domain(p), KubeConfig)
  {
    EdgePrecedes(x, g, steps, Domain(p), K8sPrime);
    EdgePrecedes(x, g, steps, Domain(p), KubeConfig);
  }

  lemma PrimeIsUpBeforeHacks(x: Setting, w: Variant, g: map<Node, Resource>, steps: seq<Step>, p: nat, i: nat)
    requires IsGraph(x.site, w, g) && IsRun(x, g, steps) && PrimeOf(x.site.unit.config) == Some(p)
    ensures Precedes(steps, Domain(p), VipHack(i)) && Precedes(steps, Domain(p), VipConfig(i))
  {
    EdgePrecedes(x, g, steps, Domain(p), VipHack(i));
    EdgePrecedes(x, g, steps, Domain(p), VipConfig(i));
  }

  /** A join follows the domain it runs on, and that of the prime, which it names. */
  lemma JoinsAreUpFirst(x: Setting, w: Variant, g: map<Node, Resource>, steps: seq<Step>, p: nat, v: nat)
    requires IsGraph(x.site, w, g) && IsRun(x, g, steps) && PrimeOf(x.site.unit.config) == Some(p)
    ensures Precedes(steps, Domain(p), Admin(v)) && Precedes(steps, Domain(p), Worker(v))
    ensures Precedes(steps, Domain(v), Admin(v)) && Precedes(steps, Domain(v), Worker(v))
  {
    EdgePrecedes(x, g, steps, Domain(p), Admin(v));
    EdgePrecedes(x, g, steps, Domain(p), Worker(v));
    EdgePrecedes(x, g, steps, Domain(v), Admin(v));
    EdgePrecedes(x, g, steps, Domain(v), Worker(v));
  }

  /** In the intended graph, what needs the cluster's first node follows its install. */
  lemma PrimeInstallFirst(x: Setting, g: map<Node, Resource>, steps: seq<Step>, v: nat)
    requires IsGraph(x.site, INTENDED, g) && IsRun(x, g, steps)
    ensures Precedes(steps, K8sPrime, KubeConfig)
    ensures Precedes(steps, K8sPrime, Admin(v)) && Precedes(steps, K8sPrime, Worker(v))
  {
    EdgePrecedes(x, g, steps, K8sPrime, KubeConfig);
    EdgePrecedes(x, g, steps, K8sPrime, Admin(v));
    EdgePrecedes(x, g, steps, K8sPrime, Worker(v));
  }

  lemma PrimeInstallBeforeHelm(x: Setting, g: map<Node, Resource>, steps: seq<Step>, i: nat)
    requires IsGraph(x.site, INTENDED, g) && IsRun(x, g, steps) && x.site.unit.kind == "k8s"
    ensures Precedes(steps, K8sPrime, VipConfig(i)) && Precedes(steps, K8sPrime, Apply(i))
  {
    UnitResourcesAre(x.site, INTENDED, g, 0);
    if VipConfig(i) in g {
      VipConfigWaitsAre(x.site, g, i, K8sPrime);
    }
    WaitPrecedes(x, g, steps, K8sPrime, VipConfig(i));
    ClusterPrecedesApply(x, INTENDED, g, steps, K8sPrime, i);
  }

  /** Before any helmfile is applied, each control-plane node has been seen Ready: its
      polling loop has ended on an answer that says so. */
  lemma ApplyAfterReady(x: Setting, w: Variant, g: map<Node, Resource>, steps: seq<Step>, m: Node, i: nat, j: nat)
    returns (k: nat)
    requires IsGraph(x.site, w, g) && IsRun(x, g, steps) && j < |steps| && steps[j] == Start(Apply(i))
    requires m in g && (m.Admin? || m.K8sPrime?)
    ensures k < j && steps[k].Finish? && steps[k].node == m
    ensures steps[k].evidence.Polled? && |steps[k].evidence.lists| > 0
    ensures m.K8sPrime? ==> PrimeOf(x.site.unit.config).Some?
    ensures var host := x.host(if m.Admin? then m.vm else PrimeOf(x.site.unit.config).value);
            IsReadyIn(host, steps[k].evidence.lists[|steps[k].evidence.lists| - 1])
  {
    ClusterPrecedesApply(x, w, g, steps, m, i);
    RunPrefix(x, g, steps, j);
    k := FinishedAt(x, g, steps[..j], m);
    ShowsReadyIs(x.host(if m.Admin? then m.vm else Prime(x.site).value),
                 steps[k].evidence.lists[|steps[k].evidence.lists| - 1]);
  }

  /** The answer lists a node of this name with condition Ready True. */
  ghost predicate IsReadyIn(host: string, l: NodeList) {
    l.Listed? && exists n, c :: n in l.nodes && n.name == host && c in n.conditions
                                && c.kind == "Ready" && c.status == "True"
  }

  lemma IsReadyInIs(host: string, kind: string, status: string)
    ensures IsReadyIn(host, Listed([NodeStatus(host, [Condition(kind, status)])])) <==>
              kind == "Ready" && status == "True"
    ensures !IsReadyIn(host, Failed) && !IsReadyIn(host, Listed([]))
  {
    var c := Condition(kind, status);
    var n := NodeStatus(host, [c]);
    assert n in [n] && c in n.conditions;
  }

  /** A hack is done only once its apply has started, and that apply only once its hack is done. */
  lemma HackBeforeApplyEnds(x: Setting, w: Variant, g: map<Node, Resource>, steps: seq<Step>, i: nat, e: Evidence)
    requires IsGraph(x.site, w, g) && VipHack(i) in g && MayFinish(x, steps, Apply(i), e)
    ensures VipHack(i) in Done(steps)
  {
    HelmResourcesAre(x.site, w, g, i);
  }

  lemma {:induction false} HackWithinApply(x: Setting, w: Variant, g: map<Node, Resource>, steps: seq<Step>, i: nat)
    requires IsGraph(x.site, w, g) && IsRun(x, g, steps)
    ensures VipHack(i) in Done(steps) ==> Apply(i) in Started(steps)
    ensures Apply(i) in Done(steps) && VipHack(i) in g ==> VipHack(i) in Done(steps)
  {
    if |steps| > 0 {
      var before, last := steps[..|steps| - 1], steps[|steps| - 1];
      HackWithinApply(x, w, g, before, i);
      assert steps == before + [last];
      StepEffect(before, last);
      if VipHack(i) in g && last.Finish? && last.node == Apply(i) {
        HackBeforeApplyEnds(x, w, g, before, i, last.evidence);
      }
    }
  }

  /** A hack that is done has ended with an update that worked, after attempts that did not. */
  lemma HackEndsUpdated(x: Setting, g: map<Node, Resource>, steps: seq<Step>, i: nat) returns (k: nat)
    requires IsRun(x, g, steps) && VipHack(i) in Done(steps)
    ensures k < |steps| && steps[k].Finish? && steps[k].node == VipHack(i) && steps[k].evidence.Hacked?
    ensures var tries := steps[k].evidence.tries;
            |tries| > 0 && tries[|tries| - 1] == Updated && forall j :: 0 <= j < |tries| - 1 ==> tries[j] != Updated
  {
    k := FinishedAt(x, g, steps, VipHack(i));
  }

  // ---- What stays unordered ----

  /** Nothing waits for the ssh config, the copied kubeconfig or a log. */
  lemma NobodyWaits(s: Site, w: Variant, g: map<Node, Resource>, m: Node, d: Node)
    requires IsGraph(s, w, g) && PlainTail(s, w.tail) && m in g
    requires d == SshConfig || d == KubeConfig || d.CiLog?
    ensures !Waits(g, m, d)
  {
    if m.VipHack? || m.Apply? {
      HelmDepsHold(s, w, m.step);
      assert !BeforeStep(s, m.step, d);
    } else {
      OthersDoNotWait(s, w, m, d);
    }
  }

  lemma OthersDoNotWait(s: Site, w: Variant, m: Node, d: Node)
    requires PlainTail(s, w.tail) && Registered(s, m) && !m.VipHack? && !m.Apply?
    requires d == SshConfig || d == KubeConfig || d.CiLog?
    ensures d !in DependsOn(s, w, m) && d !in Uses(s, m)
  {
    if m.ZypperIn? || m.CiLog? {
      PackagesDoNotWait(s, w, m, d);
    } else {
      ListsDoNotHold(s, w, d);
    }
  }

  lemma ListsDoNotHold(s: Site, w: Variant, d: Node)
    requires PlainTail(s, w.tail) && (d == SshConfig || d == KubeConfig || d.CiLog?)
    ensures d !in AllVmDeps(s, w.reset) && d !in K8sDeps(s, w) && d !in PrimeDomain(s)
  {
    InVmDeps(s.inputs, w.reset, |Machines(s)|, d);
  }

  lemma PackagesDoNotWait(s: Site, w: Variant, m: Node, d: Node)
    requires Registered(s, m) && (m.ZypperIn? || m.CiLog?)
    requires d == SshConfig || d == KubeConfig || d.CiLog?
    ensures d !in DependsOn(s, w, m) && d !in Uses(s, m)
  {
    InVmDeps(s.inputs, w.reset, m.vm, d);
  }

  /** So some run completes everything else and starts none of them. */
  lemma SideProductsUnordered(x: Setting, w: Variant, g: map<Node, Resource>) returns (steps: seq<Step>)
    requires IsGraph(x.site, w, g) && PlainTail(x.site, w.tail) && PrimeSupplied(x.site)
    ensures IsRun(x, g, steps)
    ensures forall m :: m in Done(steps) <==> m in g && m != SshConfig && m != KubeConfig && !m.CiLog?
    ensures forall m :: m in Started(steps) ==> m != SshConfig && m != KubeConfig && !m.CiLog?
  {
    AllClosed(x.site, w, g);
    AllSupplied(x.site, w, g);
    var part := set m | m in g && m != SshConfig && m != KubeConfig && !m.CiLog?;
    forall m, d | m in part && WaitsFor(g[m], d) ensures d in part {
      if d == SshConfig || d == KubeConfig || d.CiLog? {
        NobodyWaits(x.site, w, g, m, d);
      }
    }
    steps := Completion(x, w, g, part, []);
    assert Started([]) == {};
    DoneWasStarted(x, g, steps);
  }

  /** Everything but the helmfiles' hacks and applies is complete by itself. */
  lemma UntilHelmClosed(s: Site, w: Variant, g: map<Node, Resource>) returns (part: set<Node>)
    requires IsGraph(s, w, g) && PlainTail(s, w.tail) && PrimeSupplied(s)
    ensures Closed(g, part) && PartSupplied(s, part)
    ensures forall j :: VipConfig(j) in g ==> VipConfig(j) in part
    ensures forall j :: Apply(j) !in part
  {
    part := set m | m in g && Rank(m) <= 7;
    forall m, d | m in part && WaitsFor(g[m], d) ensures d in part {
      Ranked(s, w, g, m, d);
    }
    forall j: nat ensures VipHack(j) !in part && Apply(j) !in part {
      assert Rank(VipHack(j)) > 7 && Rank(Apply(j)) > 7;
    }
    forall j: nat ensures Rank(VipConfig(j)) <= 7 {}
    AllSupplied(s, w, g);
  }

  /** The kubeconfig for the vip does not wait for the apply that brings up the vip:
      some run has rewritten it and started no helmfile. */
  lemma VipConfigUnordered(x: Setting, w: Variant, g: map<Node, Resource>, i: nat) returns (steps: seq<Step>)
    requires IsGraph(x.site, w, g) && PlainTail(x.site, w.tail) && PrimeSupplied(x.site) && VipConfig(i) in g
    ensures IsRun(x, g, steps) && VipConfig(i) in Done(steps) && forall j :: Apply(j) !in Started(steps)
  {
    var part := UntilHelmClosed(x.site, w, g);
    steps := Completion(x, w, g, part, []);
    assert Started([]) == {};
  }
}
