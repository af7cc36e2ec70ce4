/** The resources a unit registers and the edges between them, stated per resource
    and independently of the order in which the program builds them. */
module Graph {
  import opened Units

  /** One registered resource. Machines are numbered in creation order; `file`
      is a position in the inputs and `step` a position in the helmfiles. */
  datatype Node =
    | BaseVolume(config: nat)
    | Disk(vm: nat)
    | CloudInit(vm: nat)
    | Domain(vm: nat)
    | SshKey(vm: nat)
    | CopyRemote(vm: nat)
    | RemoteOk(vm: nat)
    | Motd(vm: nat)
    | ZypperIn(vm: nat)
    | EnableIscsi(vm: nat)
    | CiLog(vm: nat, log: nat)
    | CopyInput(vm: nat, file: nat)
    | InstallInput(vm: nat, file: nat)
    | SshConfig
    | K8sPrime
    | KubeConfig
    | Admin(vm: nat)
    | Worker(vm: nat)
    | VipHack(step: nat)
    | Apply(step: nat)
    | VipConfig(step: nat)

  /** What a resource waits for: its DependsOn list, in order and with its
      repetitions, and the resources whose outputs it uses. */
  datatype Resource = Resource(dependsOn: seq<Node>, uses: seq<Node>)

  /** Two points on which a graph can differ from the intended one. `tail` is the
      resource read at the end of every list made from the k8s list: K8sPrime when
      slices keep their contents. `reset` starts the file list afresh at each
      machine, which the program does not do. */
  datatype Variant = Variant(tail: Node, reset: bool)

  const INTENDED := Variant(K8sPrime, false)

  /** The log files fetched from each machine: cloud-init.log and cloud-init-output.log. */
  const CI_LOGS: nat := 2

  function Machines(s: Site): seq<Vm> {
    Vms(s.unit.config)
  }

  function Prime(s: Site): (r: Option<nat>) {
    PrimeOf(s.unit.config)
  }

  function Named(s: Site, name: string): seq<nat> {
    Group(s.unit.config, name)
  }

  predicate IsK8s(s: Site) {
    s.unit.kind == "k8s"
  }

  /** The helmfile loop runs only for an online unit named "upstream". */
  predicate Helms(s: Site) {
    s.unit.online && s.unit.name == "upstream" && !s.noHelmfile
  }

  predicate IsHacked(hf: string) {
    hf == "ai" || hf == "nexus"
  }

  // ---- The accumulated lists ----

  /** The installs on machine v of the first k inputs; an input without a destination is skipped. */
  function Installs(inputs: seq<CachedFile>, v: nat, k: nat): (r: seq<Node>)
    requires k <= |inputs|
  {
    if k == 0 then [] else
      Installs(inputs, v, k - 1) + if inputs[k - 1].dest != "" then [InstallInput(v, k - 1)] else []
  }

  /** fileDepends once v machines are built. */
  function FileDeps(inputs: seq<CachedFile>, reset: bool, v: nat): seq<Node> {
    if v == 0 then []
    else if reset then Installs(inputs, v - 1, |inputs|)
    else FileDeps(inputs, reset, v - 1) + Installs(inputs, v - 1, |inputs|)
  }

  /** vmDepends once v machines are built. */
  function VmDeps(inputs: seq<CachedFile>, reset: bool, v: nat): seq<Node> {
    if v == 0 then [] else
      VmDeps(inputs, reset, v - 1) + [RemoteOk(v - 1)] + [Motd(v - 1)] + FileDeps(inputs, reset, v)
  }

  /** pkgInstalls once v machines are built. */
  function PkgDeps(online: bool, v: nat): seq<Node> {
    if v == 0 || !online then [] else PkgDeps(online, v - 1) + [ZypperIn(v - 1)] + [EnableIscsi(v - 1)]
  }

  function AllVmDeps(s: Site, reset: bool): seq<Node> {
    VmDeps(s.inputs, reset, |Machines(s)|)
  }

  function Admins(vms: seq<nat>): (r: seq<Node>)
    ensures |r| == |vms| && forall i :: 0 <= i < |vms| ==> r[i] == Admin(vms[i])
  {
    seq(|vms|, i requires 0 <= i < |vms| => Admin(vms[i]))
  }

  function Workers(vms: seq<nat>): (r: seq<Node>)
    ensures |r| == |vms| && forall i :: 0 <= i < |vms| ==> r[i] == Worker(vms[i])
  {
    seq(|vms|, i requires 0 <= i < |vms| => Worker(vms[i]))
  }

  /** k8sDepends after its last use. */
  function K8sDeps(s: Site, w: Variant): seq<Node> {
    AllVmDeps(s, w.reset) + if IsK8s(s) then [w.tail] else []
  }

  /** What helmfile step i adds to vmDepends. */
  function StepDeps(hf: string, i: nat): seq<Node> {
    if IsHacked(hf) then [Apply(i), VipHack(i)]
    else if hf == "kube-vip" then [Apply(i), VipConfig(i)]
    else [Apply(i)]
  }

  /** m is what helmfile step i registers and later steps wait for. */
  predicate OfStep(hf: string, i: nat, m: Node) {
    m == Apply(i) || (IsHacked(hf) && m == VipHack(i)) || (hf == "kube-vip" && m == VipConfig(i))
  }

  /** vmDepends after the k8s block; what it copies from k8sDepends is copied while that is intact. */
  function AfterK8s(s: Site, w: Variant): seq<Node> {
    if IsK8s(s) then
      AllVmDeps(s, w.reset) + (AllVmDeps(s, w.reset) + [K8sPrime])
      + Admins(Named(s, "default")) + Workers(Named(s, "agent"))
    else AllVmDeps(s, w.reset)
  }

  /** `base` with what the first i helmfile steps add. */
  function StepsFrom(base: seq<Node>, helmfiles: seq<string>, i: nat): seq<Node>
    requires i <= |helmfiles|
  {
    if i == 0 then base else StepsFrom(base, helmfiles, i - 1) + StepDeps(helmfiles[i - 1], i - 1)
  }

  /** vmDepends when the helmfile loop is reached. */
  function BeforeHelm(s: Site, w: Variant): seq<Node> {
    AfterK8s(s, w) + PkgDeps(s.unit.online, |Machines(s)|)
  }

  /** vmDepends when helmfile step i starts to register. */
  function HelmDeps(s: Site, w: Variant, i: nat): seq<Node>
    requires i <= |s.unit.helmfiles|
  {
    StepsFrom(BeforeHelm(s, w), s.unit.helmfiles, i)
  }

  // ---- The graph ----

  /** The resources that exist for this site. */
  predicate Registered(s: Site, m: Node) {
    match m
    case BaseVolume(c) => c < |s.unit.config|
    case ZypperIn(v) => v < |Machines(s)| && s.unit.online
    case EnableIscsi(v) => v < |Machines(s)| && s.unit.online
    case CiLog(v, k) => v < |Machines(s)| && k < CI_LOGS
    case CopyInput(v, f) => v < |Machines(s)| && f < |s.inputs| && s.inputs[f].dest != ""
    case InstallInput(v, f) => v < |Machines(s)| && f < |s.inputs| && s.inputs[f].dest != ""
    case SshConfig => true
    case K8sPrime => IsK8s(s)
    case KubeConfig => IsK8s(s)
    case Admin(v) => IsK8s(s) && v in Named(s, "default")
    case Worker(v) => IsK8s(s) && v in Named(s, "agent")
    case VipHack(i) => Helms(s) && i < |s.unit.helmfiles| && IsHacked(s.unit.helmfiles[i])
    case Apply(i) => Helms(s) && i < |s.unit.helmfiles|
    case VipConfig(i) => Helms(s) && i < |s.unit.helmfiles| && s.unit.helmfiles[i] == "kube-vip"
    case _ => m.vm < |Machines(s)|
  }

  /** The DependsOn list of a registered resource. */
  function DependsOn(s: Site, w: Variant, m: Node): seq<Node>
    requires Registered(s, m)
  {
    match m
    case BaseVolume(_) => []
    case Disk(_) => []
    case CloudInit(_) => []
    case Domain(_) => []
    case SshKey(v) => [Domain(v)]
    case CopyRemote(v) => [SshKey(v)]
    case RemoteOk(v) => [SshKey(v), CopyRemote(v)]
    case Motd(v) => [SshKey(v)]
    case ZypperIn(v) => VmDeps(s.inputs, w.reset, v) + [RemoteOk(v)]
    case EnableIscsi(v) => [ZypperIn(v)]
    case CiLog(v, _) => VmDeps(s.inputs, w.reset, v) + [RemoteOk(v)]
    case CopyInput(_, _) => []
    case InstallInput(v, f) => [CopyInput(v, f)]
    case SshConfig => AllVmDeps(s, w.reset)
    case K8sPrime => AllVmDeps(s, w.reset)
    case KubeConfig => K8sDeps(s, w)
    case Admin(_) => K8sDeps(s, w)
    case Worker(_) => K8sDeps(s, w)
    case VipHack(i) => HelmDeps(s, w, i)
    case Apply(i) => HelmDeps(s, w, i)
    case VipConfig(_) => K8sDeps(s, w)
  }

  function PrimeDomain(s: Site): seq<Node> {
    if Prime(s).Some? then [Domain(Prime(s).value)] else []
  }

  function Domains(n: nat): (r: seq<Node>)
    ensures |r| == n && forall v :: 0 <= v < n ==> r[v] == Domain(v)
  {
    seq(n, v requires 0 <= v < n => Domain(v))
  }

  /** The resources whose outputs a registered resource reads: volume and disk
      ids, and the addresses of the domains its connection or command names. */
  function Uses(s: Site, m: Node): seq<Node>
    requires Registered(s, m)
  {
    match m
    case BaseVolume(_) => []
    case Disk(v) => [BaseVolume(Machines(s)[v].config)]
    case CloudInit(_) => []
    case Domain(v) => [Disk(v), CloudInit(v)]
    case SshConfig => Domains(|Machines(s)|)
    case K8sPrime => PrimeDomain(s)
    case KubeConfig => PrimeDomain(s)
    case Admin(v) => [Domain(v)] + PrimeDomain(s)
    case Worker(v) => [Domain(v)] + PrimeDomain(s)
    case VipHack(_) => PrimeDomain(s)
    case Apply(_) => []
    case VipConfig(_) => PrimeDomain(s)
    case _ => [Domain(m.vm)]
  }

  /** g is the graph of site s, in variant w. */
  ghost predicate IsGraph(s: Site, w: Variant, g: map<Node, Resource>) {
    && (forall m :: m in g <==> Registered(s, m))
    && (forall m :: m in g ==> g[m] == Resource(DependsOn(s, w, m), Uses(s, m)))
  }

  /** The command connects to the prime. */
  predicate Connects(m: Node) {
    m.K8sPrime? || m.KubeConfig? || m.VipHack? || m.VipConfig?
  }

  /** The step of this helmfile has a command that connects to the prime. */
  predicate ConnectsIn(hf: string) {
    IsHacked(hf) || hf == "kube-vip"
  }

  /** Some command connects to the prime. */
  predicate NeedsPrime(s: Site) {
    IsK8s(s) || (Helms(s) && exists i :: 0 <= i < |s.unit.helmfiles| && ConnectsIn(s.unit.helmfiles[i]))
  }

  /** What some command connects to exists. */
  predicate PrimeSupplied(s: Site) {
    NeedsPrime(s) ==> Prime(s).Some?
  }

  // ---- What the lists hold ----

  /** m installs an input that has a destination. */
  predicate IsInstall(inputs: seq<CachedFile>, m: Node) {
    m.InstallInput? && m.file < |inputs| && inputs[m.file].dest != ""
  }

  /** A machine is set up once its remote binary answers, its motd is written and
      every input with a destination is installed. */
  predicate SetsUp(inputs: seq<CachedFile>, m: Node) {
    m.RemoteOk? || m.Motd? || IsInstall(inputs, m)
  }

  lemma {:induction false} InInstalls(inputs: seq<CachedFile>, v: nat, k: nat, m: Node)
    requires k <= |inputs|
    ensures m in Installs(inputs, v, k) <==> IsInstall(inputs, m) && m.vm == v && m.file < k
  {
    if k > 0 {
      InInstalls(inputs, v, k - 1, m);
    }
  }

  lemma InConcat(a: seq<Node>, b: seq<Node>, m: Node)
    ensures m in a + b <==> m in a || m in b
  {
  }

  lemma {:induction false} InFileDeps(inputs: seq<CachedFile>, reset: bool, v: nat, m: Node)
    ensures m in FileDeps(inputs, reset, v) <==> IsInstall(inputs, m) && m.vm < v && (reset ==> m.vm == v - 1)
  {
    if v > 0 {
      var own := Installs(inputs, v - 1, |inputs|);
      InInstalls(inputs, v - 1, |inputs|, m);
      assert m in own <==> IsInstall(inputs, m) && m.vm == v - 1;
      if reset {
        assert FileDeps(inputs, true, v) == own;
      } else {
        InFileDeps(inputs, false, v - 1, m);
        InConcat(FileDeps(inputs, false, v - 1), own, m);
      }
    }
  }

  /** vmDepends after v machines is, as a set, everything that sets up those
      machines, whether or not the file list starts afresh at each machine. */
  lemma {:induction false} InVmDeps(inputs: seq<CachedFile>, reset: bool, v: nat, m: Node)
    ensures m in VmDeps(inputs, reset, v) <==> SetsUp(inputs, m) && m.vm < v
  {
    if v > 0 {
      InVmDeps(inputs, reset, v - 1, m);
      InFileDeps(inputs, reset, v, m);
      NextMachine(inputs, reset, v, m,
                  VmDeps(inputs, reset, v - 1), FileDeps(inputs, reset, v), VmDeps(inputs, reset, v));
    }
  }

  /** What sets up v machines sets up the first v-1 or is new with the last. */
  lemma NextMachine(inputs: seq<CachedFile>, reset: bool, v: nat, m: Node,
                    front: seq<Node>, own: seq<Node>, all: seq<Node>)
    requires v > 0 && (m in front <==> SetsUp(inputs, m) && m.vm < v - 1)
    requires m in own <==> IsInstall(inputs, m) && m.vm < v && (reset ==> m.vm == v - 1)
    requires all == front + [RemoteOk(v - 1)] + [Motd(v - 1)] + own
    ensures m in all <==> SetsUp(inputs, m) && m.vm < v
  {
    InConcat(front + [RemoteOk(v - 1)] + [Motd(v - 1)], own, m);
    InConcat(front + [RemoteOk(v - 1)], [Motd(v - 1)], m);
    InConcat(front, [RemoteOk(v - 1)], m);
  }

  lemma VmDepsHold(inputs: seq<CachedFile>, reset: bool, v: nat)
    ensures forall m :: m in VmDeps(inputs, reset, v) <==> SetsUp(inputs, m) && m.vm < v
  {
    forall m { InVmDeps(inputs, reset, v, m); }
  }

  lemma {:induction false} PkgDepsHold(online: bool, v: nat)
    ensures forall m :: m in PkgDeps(online, v) <==> online && (m.ZypperIn? || m.EnableIscsi?) && m.vm < v
  {
    if v > 0 {
      PkgDepsHold(online, v - 1);
    }
  }

  /** m installs a node of the cluster. */
  predicate IsInstallOf(s: Site, m: Node) {
    m.K8sPrime? || (m.Admin? && m.vm in Named(s, "default")) || (m.Worker? && m.vm in Named(s, "agent"))
  }

  /** What helmfile step i waits for: the setup of every machine; for kind k8s every
      install; for an online unit every package; and everything each earlier step added. */
  ghost predicate BeforeStep(s: Site, i: nat, m: Node) {
    || (SetsUp(s.inputs, m) && m.vm < |Machines(s)|)
    || (IsK8s(s) && IsInstallOf(s, m))
    || (s.unit.online && (m.ZypperIn? || m.EnableIscsi?) && m.vm < |Machines(s)|)
    || ((m.Apply? || m.VipHack? || m.VipConfig?) && m.step < i && i <= |s.unit.helmfiles|
        && OfStep(s.unit.helmfiles[m.step], m.step, m))
  }

  lemma {:induction false} StepsHold(base: seq<Node>, helmfiles: seq<string>, i: nat, m: Node)
    requires i <= |helmfiles|
    ensures m in StepsFrom(base, helmfiles, i) <==>
              || m in base
              || ((m.Apply? || m.VipHack? || m.VipConfig?) && m.step < i && OfStep(helmfiles[m.step], m.step, m))
  {
    if i > 0 {
      StepsHold(base, helmfiles, i - 1, m);
      InConcat(StepsFrom(base, helmfiles, i - 1), StepDeps(helmfiles[i - 1], i - 1), m);
    }
  }

  lemma HelmDepsHold(s: Site, w: Variant, i: nat)
    requires i <= |s.unit.helmfiles|
    ensures forall m :: m in HelmDeps(s, w, i) <==> BeforeStep(s, i, m)
  {
    PkgDepsHold(s.unit.online, |Machines(s)|);
    AfterK8sHold(s, w);
    forall m ensures m in HelmDeps(s, w, i) <==> BeforeStep(s, i, m) {
      StepsHold(BeforeHelm(s, w), s.unit.helmfiles, i, m);
    }
  }

  lemma AfterK8sHold(s: Site, w: Variant)
    ensures forall m :: m in AfterK8s(s, w) <==>
              || (SetsUp(s.inputs, m) && m.vm < |Machines(s)|)
              || (IsK8s(s) && IsInstallOf(s, m))
  {
    VmDepsHold(s.inputs, w.reset, |Machines(s)|);
    var ds, ags := Named(s, "default"), Named(s, "agent");
    forall m ensures m in Admins(ds) <==> m.Admin? && m.vm in ds {
      if m.Admin? && m.vm in ds {
        var i :| 0 <= i < |ds| && ds[i] == m.vm;
        assert Admins(ds)[i] == m;
      }
    }
    forall m ensures m in Workers(ags) <==> m.Worker? && m.vm in ags {
      if m.Worker? && m.vm in ags {
        var i :| 0 <= i < |ags| && ags[i] == m.vm;
        assert Workers(ags)[i] == m;
      }
    }
  }

  // ---- How long the lists are ----

  /** The inputs that are sent to every machine. */
  function Sent(inputs: seq<CachedFile>, k: nat): nat
    requires k <= |inputs|
  {
    if k == 0 then 0 else Sent(inputs, k - 1) + if inputs[k - 1].dest != "" then 1 else 0
  }

  /** Where the inputs that are sent are. */
  function SentAt(inputs: seq<CachedFile>, k: nat): (r: set<nat>)
    requires k <= |inputs|
    ensures forall f: nat :: f in r <==> f < k && inputs[f].dest != ""
  {
    set f: nat | f < k && inputs[f].dest != ""
  }

  lemma {:induction false} SentCounts(inputs: seq<CachedFile>, k: nat)
    requires k <= |inputs|
    ensures Sent(inputs, k) == |SentAt(inputs, k)|
  {
    if k == 0 {
      assert SentAt(inputs, 0) == {};
    } else {
      SentCounts(inputs, k - 1);
      assert SentAt(inputs, k) == SentAt(inputs, k - 1) + if inputs[k - 1].dest != "" then {k - 1} else {};
    }
  }

  function Elements(list: seq<Node>): set<Node> {
    set m | m in list
  }

  lemma {:induction false} InstallsCount(inputs: seq<CachedFile>, v: nat, k: nat)
    requires k <= |inputs|
    ensures |Installs(inputs, v, k)| == |Elements(Installs(inputs, v, k))| == Sent(inputs, k)
  {
    if k == 0 {
      assert Elements([]) == {};
    } else {
      InstallsCount(inputs, v, k - 1);
      if inputs[k - 1].dest != "" {
        InInstalls(inputs, v, k - 1, InstallInput(v, k - 1));
        AddElement(Installs(inputs, v, k - 1), InstallInput(v, k - 1));
        assert Installs(inputs, v, k) == Installs(inputs, v, k - 1) + [InstallInput(v, k - 1)];
      } else {
        assert Installs(inputs, v, k) == Installs(inputs, v, k - 1);
      }
    }
  }

  lemma AddElement(list: seq<Node>, m: Node)
    requires m !in list
    ensures |Elements(list + [m])| == |Elements(list)| + 1
  {
    assert Elements(list + [m]) == Elements(list) + {m};
  }

  lemma OneMore(v: nat, f: nat)
    requires v > 0
    ensures (v - 1) * f + f == v * f
  {
  }

  lemma {:induction false} FileDepsCount(inputs: seq<CachedFile>, v: nat)
    ensures |FileDeps(inputs, false, v)| == v * Sent(inputs, |inputs|)
  {
    if v > 0 {
      FileDepsCount(inputs, v - 1);
      InstallsCount(inputs, v - 1, |inputs|);
      OneMore(v, Sent(inputs, |inputs|));
    }
  }

  lemma Triangle(f: nat, n: nat)
    requires n > 0
    ensures f * (n * (n + 1)) == f * ((n - 1) * n) + 2 * (n * f)
  {
    assert n * (n + 1) == (n - 1) * n + 2 * n;
    assert f * ((n - 1) * n + 2 * n) == f * ((n - 1) * n) + f * (2 * n);
  }

  /** The accumulated list grows with the square of the number of machines: with n
      machines and f inputs sent it has 2n + f n(n+1)/2 entries. */
  lemma {:induction false} VmDepsLength(inputs: seq<CachedFile>, n: nat)
    ensures 2 * |VmDeps(inputs, false, n)| == 4 * n + Sent(inputs, |inputs|) * (n * (n + 1))
  {
    if n > 0 {
      VmDepsLength(inputs, n - 1);
      FileDepsCount(inputs, n);
      Triangle(Sent(inputs, |inputs|), n);
    }
  }

  lemma NewVmDep(inputs: seq<CachedFile>, v: nat, m: Node)
    ensures m in VmDeps(inputs, false, v + 1) <==>
              m in VmDeps(inputs, false, v) || m == RemoteOk(v) || m == Motd(v) || m in Installs(inputs, v, |inputs|)
  {
    InInstalls(inputs, v, |inputs|, m);
    InVmDeps(inputs, false, v + 1, m);
    InVmDeps(inputs, false, v, m);
  }

  lemma VmElements(inputs: seq<CachedFile>, v: nat)
    ensures Elements(VmDeps(inputs, false, v + 1)) ==
              Elements(VmDeps(inputs, false, v)) + {RemoteOk(v), Motd(v)} + Elements(Installs(inputs, v, |inputs|))
  {
    var prior, own := Elements(VmDeps(inputs, false, v)), Elements(Installs(inputs, v, |inputs|));
    forall m ensures m in Elements(VmDeps(inputs, false, v + 1)) <==> m in prior + {RemoteOk(v), Motd(v)} + own {
      NewVmDep(inputs, v, m);
    }
  }

  lemma {:induction false} VmElementsApart(inputs: seq<CachedFile>, v: nat)
    ensures var prior, own := Elements(VmDeps(inputs, false, v)), Elements(Installs(inputs, v, |inputs|));
            prior !! {RemoteOk(v), Motd(v)} && prior !! own && own !! {RemoteOk(v), Motd(v)}
  {
    forall m | m in VmDeps(inputs, false, v)
      ensures m !in {RemoteOk(v), Motd(v)} && m !in Installs(inputs, v, |inputs|)
    {
      InVmDeps(inputs, false, v, m);
      InInstalls(inputs, v, |inputs|, m);
    }
    InInstalls(inputs, v, |inputs|, RemoteOk(v));
    InInstalls(inputs, v, |inputs|, Motd(v));
  }

  lemma ApartSize(a: set<Node>, m: Node, n: Node, b: set<Node>)
    requires m != n && a !! {m, n} && a !! b && b !! {m, n}
    ensures |a + {m, n} + b| == |a| + 2 + |b|
  {
  }

  /** ... which name only n (2+f) resources. */
  lemma {:induction false} VmDepsDistinct(inputs: seq<CachedFile>, n: nat)
    ensures |Elements(VmDeps(inputs, false, n))| == n * (2 + Sent(inputs, |inputs|))
  {
    if n == 0 {
      assert Elements(VmDeps(inputs, false, 0)) == {};
    } else {
      VmDepsDistinct(inputs, n - 1);
      MachineSize(inputs, n - 1);
      OneMore(n, 2 + Sent(inputs, |inputs|));
    }
  }

  /** A machine brings 2+f resources of its own. */
  lemma MachineSize(inputs: seq<CachedFile>, v: nat)
    ensures |Elements(VmDeps(inputs, false, v + 1))|
            == |Elements(VmDeps(inputs, false, v))| + 2 + Sent(inputs, |inputs|)
  {
    VmElements(inputs, v);
    VmElementsApart(inputs, v);
    InstallsCount(inputs, v, |inputs|);
    ApartSize(Elements(VmDeps(inputs, false, v)), RemoteOk(v), Motd(v), Elements(Installs(inputs, v, |inputs|)));
  }
}
