/** The order in which a unit registers its resources, what it holds, and that it
    repeats nothing. */
module RegistrationOrder {
  import opened Units
  import opened Graph

  // ---- The order of registration: each stage extends the resources `o` before it ----

  function DomainOrder(o: seq<Node>, v: nat): seq<Node> {
    o + [Disk(v), CloudInit(v), Domain(v)]
  }

  function CheckOrder(o: seq<Node>, v: nat): seq<Node> {
    o + [SshKey(v), CopyRemote(v), RemoteOk(v), Motd(v)]
  }

  function PackageOrder(o: seq<Node>, online: bool, v: nat): seq<Node> {
    (if online then o + [ZypperIn(v), EnableIscsi(v)] else o) + [CiLog(v, 0), CiLog(v, 1)]
  }

  function InputOrder(o: seq<Node>, inputs: seq<CachedFile>, v: nat, k: nat): seq<Node>
    requires k <= |inputs|
  {
    if k == 0 then o
    else if inputs[k - 1].dest != "" then
      InputOrder(o, inputs, v, k - 1) + [CopyInput(v, k - 1)] + [InstallInput(v, k - 1)]
    else InputOrder(o, inputs, v, k - 1)
  }

  function VmOrder(o: seq<Node>, s: Site, v: nat): seq<Node> {
    InputOrder(PackageOrder(CheckOrder(DomainOrder(o, v), v), s.unit.online, v), s.inputs, v, |s.inputs|)
  }

  /** k machines from number `base` on. */
  function RowOrder(o: seq<Node>, s: Site, base: nat, k: nat): seq<Node> {
    if k == 0 then o else VmOrder(RowOrder(o, s, base, k - 1), s, base + k - 1)
  }

  /** The number of machines of the first c configs. */
  function Offset(s: Site, c: nat): nat
    requires c <= |s.unit.config|
  {
    |FirstVms(s.unit.config, c)|
  }

  /** The number of turns of the loop over the count of config c. */
  function Count(s: Site, c: nat): nat
    requires c < |s.unit.config|
  {
    if s.unit.config[c].count < 0 then 0 else s.unit.config[c].count
  }

  /** The machines of config c are numbered from base on. */
  ghost predicate RowAt(s: Site, c: nat, base: nat)
    requires c < |s.unit.config|
  {
    && base + Count(s, c) <= |Machines(s)|
    && forall v :: base <= v < base + Count(s, c) ==> Machines(s)[v] == Vm(c, v - base)
  }

  /** The first c configs. */
  function ConfigOrder(s: Site, c: nat): seq<Node>
    requires c <= |s.unit.config|
  {
    if c == 0 then [] else
      RowOrder(ConfigOrder(s, c - 1) + [BaseVolume(c - 1)], s, Offset(s, c - 1), Count(s, c - 1))
  }

  function K8sOrder(o: seq<Node>, s: Site): seq<Node> {
    o + [K8sPrime] + [KubeConfig] + Admins(Named(s, "default")) + Workers(Named(s, "agent"))
  }

  /** What helmfile step i registers. */
  function StepNodes(hf: string, i: nat): seq<Node> {
    if IsHacked(hf) then [VipHack(i), Apply(i)]
    else if hf == "kube-vip" then [Apply(i), VipConfig(i)]
    else [Apply(i)]
  }

  function HelmOrder(o: seq<Node>, s: Site, i: nat): seq<Node>
    requires i <= |s.unit.helmfiles|
  {
    if i == 0 then o else HelmOrder(o, s, i - 1) + StepNodes(s.unit.helmfiles[i - 1], i - 1)
  }

  function BaseOrder(s: Site): seq<Node> {
    ConfigOrder(s, |s.unit.config|) + [SshConfig]
  }

  function ClusterOrder(s: Site): seq<Node> {
    if IsK8s(s) then K8sOrder(BaseOrder(s), s) else BaseOrder(s)
  }

  /** Every resource of the unit, as registered. */
  function Order(s: Site): seq<Node> {
    if Helms(s) then HelmOrder(ClusterOrder(s), s, |s.unit.helmfiles|) else ClusterOrder(s)
  }

  /** The machines of the first c+1 configs are those of the first c and a row. */
  lemma NextRow(s: Site, c: nat)
    requires c < |s.unit.config|
    ensures Offset(s, c) + Count(s, c) == Offset(s, c + 1) && RowAt(s, c, Offset(s, c))
  {
    var cs := s.unit.config;
    VmsPrefix(cs, c + 1);
    forall v | Offset(s, c) <= v < Offset(s, c + 1) ensures Machines(s)[v] == Vm(c, v - Offset(s, c)) {
      assert Machines(s)[v] == FirstVms(cs, c + 1)[v];
    }
  }

  // ---- What the order holds ----

  /** m belongs to one machine, not to the unit or the cluster on it. */
  predicate OfVm(m: Node) {
    match m
    case BaseVolume(_) => false
    case SshConfig => false
    case K8sPrime => false
    case KubeConfig => false
    case Admin(_) => false
    case Worker(_) => false
    case VipHack(_) => false
    case Apply(_) => false
    case VipConfig(_) => false
    case _ => true
  }

  /** All others belong to the unit: these, and nothing else. */
  lemma OfVmIs(m: Node)
    ensures !OfVm(m) <==>
              || m.BaseVolume? || m == SshConfig || m == K8sPrime || m == KubeConfig || m.Admin? || m.Worker?
              || m.VipHack? || m.Apply? || m.VipConfig?
  {
  }

  lemma {:induction false} InInputOrder(o: seq<Node>, inputs: seq<CachedFile>, v: nat, k: nat, m: Node)
    requires k <= |inputs|
    ensures m in InputOrder(o, inputs, v, k) <==>
              m in o || ((m.CopyInput? || m.InstallInput?) && m.vm == v && m.file < k && inputs[m.file].dest != "")
  {
    if k > 0 {
      InInputOrder(o, inputs, v, k - 1, m);
    }
  }

  lemma InFirstStages(o: seq<Node>, online: bool, v: nat, m: Node)
    ensures m in PackageOrder(CheckOrder(DomainOrder(o, v), v), online, v) <==>
              || m in o
              || m in {Disk(v), CloudInit(v), Domain(v), SshKey(v), CopyRemote(v), RemoteOk(v), Motd(v)}
              || m in {CiLog(v, 0), CiLog(v, 1)}
              || (online && m in {ZypperIn(v), EnableIscsi(v)})
  {
  }

  lemma InVmOrder(o: seq<Node>, s: Site, v: nat, m: Node)
    requires v < |Machines(s)|
    ensures m in VmOrder(o, s, v) <==> m in o || (OfVm(m) && m.vm == v && Registered(s, m))
  {
    InFirstStages(o, s.unit.online, v, m);
    InInputOrder(PackageOrder(CheckOrder(DomainOrder(o, v), v), s.unit.online, v), s.inputs, v, |s.inputs|, m);
  }

  lemma {:induction false} InRowOrder(o: seq<Node>, s: Site, base: nat, k: nat, m: Node)
    requires base + k <= |Machines(s)|
    ensures m in RowOrder(o, s, base, k) <==> m in o || (OfVm(m) && base <= m.vm < base + k && Registered(s, m))
  {
    if k > 0 {
      InRowOrder(o, s, base, k - 1, m);
      InVmOrder(RowOrder(o, s, base, k - 1), s, base + k - 1, m);
    }
  }

  lemma {:induction false} InConfigOrder(s: Site, c: nat, m: Node)
    requires c <= |s.unit.config|
    ensures m in ConfigOrder(s, c) <==>
              (m.BaseVolume? && m.config < c) || (OfVm(m) && m.vm < Offset(s, c) && Registered(s, m))
  {
    if c > 0 {
      InConfigOrder(s, c - 1, m);
      NextRow(s, c - 1);
      InRowOrder(ConfigOrder(s, c - 1) + [BaseVolume(c - 1)], s, Offset(s, c - 1), Count(s, c - 1), m);
    }
  }

  lemma InBaseOrder(s: Site, m: Node)
    ensures m in BaseOrder(s) <==> m == SshConfig || ((m.BaseVolume? || OfVm(m)) && Registered(s, m))
  {
    InConfigOrder(s, |s.unit.config|, m);
  }

  lemma InAdminsAndWorkers(s: Site, m: Node)
    ensures m in Admins(Named(s, "default")) <==> m.Admin? && m.vm in Named(s, "default")
    ensures m in Workers(Named(s, "agent")) <==> m.Worker? && m.vm in Named(s, "agent")
  {
    var ds, ags := Named(s, "default"), Named(s, "agent");
    if m.Admin? && m.vm in ds {
      var i :| 0 <= i < |ds| && ds[i] == m.vm;
      assert Admins(ds)[i] == m;
    }
    if m.Worker? && m.vm in ags {
      var i :| 0 <= i < |ags| && ags[i] == m.vm;
      assert Workers(ags)[i] == m;
    }
  }

  lemma InClusterOrder(s: Site, m: Node)
    ensures m in ClusterOrder(s) <==> Registered(s, m) && !m.VipHack? && !m.Apply? && !m.VipConfig?
  {
    InBaseOrder(s, m);
    InAdminsAndWorkers(s, m);
  }

  lemma {:induction false} InHelmOrder(o: seq<Node>, s: Site, i: nat, m: Node)
    requires i <= |s.unit.helmfiles| && Helms(s)
    ensures m in HelmOrder(o, s, i) <==>
              m in o || ((m.VipHack? || m.Apply? || m.VipConfig?) && m.step < i && Registered(s, m))
  {
    if i > 0 {
      InHelmOrder(o, s, i - 1, m);
      InConcat(HelmOrder(o, s, i - 1), StepNodes(s.unit.helmfiles[i - 1], i - 1), m);
    }
  }

  /** The program registers exactly the resources of the declared graph. */
  lemma OrderComplete(s: Site, m: Node)
    ensures m in Order(s) <==> Registered(s, m)
  {
    InClusterOrder(s, m);
    if Helms(s) {
      InHelmOrder(ClusterOrder(s), s, |s.unit.helmfiles|, m);
    }
  }

  // ---- No resource is registered twice ----

  /** There are as many resources as registrations. */
  ghost predicate Unique(o: seq<Node>) {
    |Elements(o)| == |o|
  }

  lemma UniqueSnoc(o: seq<Node>, m: Node)
    requires Unique(o) && m !in o
    ensures Unique(o + [m])
  {
    assert Elements(o + [m]) == Elements(o) + {m};
  }

  lemma {:induction false} ElementsBound(o: seq<Node>)
    ensures |Elements(o)| <= |o|
  {
    if |o| > 0 {
      var front, last := o[..|o| - 1], o[|o| - 1];
      ElementsBound(front);
      assert o == front + [last];
      assert Elements(o) == Elements(front) + {last};
    }
  }

  lemma RepeatShrinks(o: seq<Node>, i: nat, j: nat)
    requires i < j < |o| && o[i] == o[j]
    ensures |Elements(o)| < |o|
  {
    var rest := o[..j] + o[j + 1..];
    ElementsBound(rest);
    assert rest[i] == o[j];
    forall m | m in o ensures m in rest {
      var k :| 0 <= k < |o| && o[k] == m;
      assert k == j || rest[if k < j then k else k - 1] == m;
    }
    assert Elements(o) == Elements(rest);
  }

  lemma UniqueMeans(o: seq<Node>, i: nat, j: nat)
    requires Unique(o) && i < j < |o|
    ensures o[i] != o[j]
  {
    if o[i] == o[j] {
      RepeatShrinks(o, i, j);
    }
  }

  /** Nothing has yet been registered for machine v, or for one from base on. */
  ghost predicate LacksVm(o: seq<Node>, v: nat) {
    forall m :: m in o && OfVm(m) ==> m.vm != v
  }

  ghost predicate IsBelow(o: seq<Node>, base: nat) {
    forall m :: m in o && OfVm(m) ==> m.vm < base
  }

  /** No input has yet been registered for machine v. */
  ghost predicate NoInputs(o: seq<Node>, v: nat) {
    forall m :: m in o && (m.CopyInput? || m.InstallInput?) ==> m.vm != v
  }

  lemma InputFresh(o: seq<Node>, inputs: seq<CachedFile>, v: nat, k: nat)
    requires k <= |inputs| && NoInputs(o, v)
    ensures CopyInput(v, k) !in InputOrder(o, inputs, v, k) && InstallInput(v, k) !in InputOrder(o, inputs, v, k)
  {
    InInputOrder(o, inputs, v, k, CopyInput(v, k));
    InInputOrder(o, inputs, v, k, InstallInput(v, k));
  }

  lemma {:induction false} InputsUnique(o: seq<Node>, inputs: seq<CachedFile>, v: nat, k: nat)
    requires k <= |inputs| && Unique(o) && NoInputs(o, v)
    ensures Unique(InputOrder(o, inputs, v, k))
  {
    if k > 0 {
      InputsUnique(o, inputs, v, k - 1);
      LongerInputsUnique(o, inputs, v, k - 1);
    }
  }

  lemma LongerInputsUnique(o: seq<Node>, inputs: seq<CachedFile>, v: nat, k: nat)
    requires k < |inputs| && NoInputs(o, v) && Unique(InputOrder(o, inputs, v, k))
    ensures Unique(InputOrder(o, inputs, v, k + 1))
  {
    InputFresh(o, inputs, v, k);
    InputUnique(InputOrder(o, inputs, v, k), v, k, InputOrder(o, inputs, v, k + 1));
  }

  lemma InputUnique(o: seq<Node>, v: nat, f: nat, all: seq<Node>)
    requires Unique(o) && CopyInput(v, f) !in o && InstallInput(v, f) !in o
    requires all == o || all == o + [CopyInput(v, f)] + [InstallInput(v, f)]
    ensures Unique(all)
  {
    UniqueSnoc(o, CopyInput(v, f));
    UniqueSnoc(o + [CopyInput(v, f)], InstallInput(v, f));
  }

  lemma ChecksUnique(o: seq<Node>, v: nat)
    requires Unique(o) && LacksVm(o, v)
    ensures Unique(CheckOrder(DomainOrder(o, v), v))
  {
    UniqueSnoc(o, Disk(v));
    UniqueSnoc(o + [Disk(v)], CloudInit(v));
    UniqueSnoc(o + [Disk(v)] + [CloudInit(v)], Domain(v));
    var d := DomainOrder(o, v);
    assert d == o + [Disk(v)] + [CloudInit(v)] + [Domain(v)];
    UniqueSnoc(d, SshKey(v));
    UniqueSnoc(d + [SshKey(v)], CopyRemote(v));
    UniqueSnoc(d + [SshKey(v)] + [CopyRemote(v)], RemoteOk(v));
    UniqueSnoc(d + [SshKey(v)] + [CopyRemote(v)] + [RemoteOk(v)], Motd(v));
    assert CheckOrder(d, v) == d + [SshKey(v)] + [CopyRemote(v)] + [RemoteOk(v)] + [Motd(v)];
  }

  lemma PackagesUnique(o: seq<Node>, online: bool, v: nat)
    requires Unique(o) && forall m :: m in o && (m.ZypperIn? || m.EnableIscsi? || m.CiLog?) ==> m.vm != v
    ensures Unique(PackageOrder(o, online, v))
  {
    var p := o;
    if online {
      UniqueSnoc(p, ZypperIn(v));
      UniqueSnoc(p + [ZypperIn(v)], EnableIscsi(v));
      p := p + [ZypperIn(v)] + [EnableIscsi(v)];
      assert p == o + [ZypperIn(v), EnableIscsi(v)];
    }
    UniqueSnoc(p, CiLog(v, 0));
    UniqueSnoc(p + [CiLog(v, 0)], CiLog(v, 1));
    assert PackageOrder(o, online, v) == p + [CiLog(v, 0)] + [CiLog(v, 1)];
  }

  lemma VmUnique(o: seq<Node>, s: Site, v: nat)
    requires Unique(o) && LacksVm(o, v)
    ensures Unique(VmOrder(o, s, v))
  {
    var checked := CheckOrder(DomainOrder(o, v), v);
    ChecksUnique(o, v);
    PackagesUnique(checked, s.unit.online, v);
    forall m | m in PackageOrder(checked, s.unit.online, v) && (m.CopyInput? || m.InstallInput?) ensures m.vm != v {
      InFirstStages(o, s.unit.online, v, m);
    }
    InputsUnique(PackageOrder(checked, s.unit.online, v), s.inputs, v, |s.inputs|);
  }

  lemma RowBelow(o: seq<Node>, s: Site, base: nat, k: nat)
    requires base + k <= |Machines(s)| && IsBelow(o, base)
    ensures LacksVm(RowOrder(o, s, base, k), base + k)
  {
    forall m | m in RowOrder(o, s, base, k) && OfVm(m) ensures m.vm != base + k {
      InRowOrder(o, s, base, k, m);
    }
  }

  lemma {:induction false} RowUnique(o: seq<Node>, s: Site, base: nat, k: nat)
    requires Unique(o) && base + k <= |Machines(s)| && IsBelow(o, base)
    ensures Unique(RowOrder(o, s, base, k))
  {
    if k > 0 {
      RowUnique(o, s, base, k - 1);
      LongerRowUnique(o, s, base, k - 1);
    }
  }

  lemma LongerRowUnique(o: seq<Node>, s: Site, base: nat, k: nat)
    requires base + k < |Machines(s)| && IsBelow(o, base) && Unique(RowOrder(o, s, base, k))
    ensures Unique(RowOrder(o, s, base, k + 1))
  {
    RowBelow(o, s, base, k);
    VmKeepsUnique(RowOrder(o, s, base, k), s, base + k, RowOrder(o, s, base, k + 1));
  }

  lemma VmKeepsUnique(o: seq<Node>, s: Site, v: nat, all: seq<Node>)
    requires Unique(o) && LacksVm(o, v) && all == VmOrder(o, s, v)
    ensures Unique(all)
  {
    VmUnique(o, s, v);
  }

  lemma {:induction false} ConfigsUnique(s: Site, c: nat)
    requires c <= |s.unit.config|
    ensures Unique(ConfigOrder(s, c))
  {
    if c > 0 {
      ConfigsUnique(s, c - 1);
      NextRow(s, c - 1);
      var front := ConfigOrder(s, c - 1);
      InConfigOrder(s, c - 1, BaseVolume(c - 1));
      UniqueSnoc(front, BaseVolume(c - 1));
      forall m | m in front + [BaseVolume(c - 1)] && OfVm(m) ensures m.vm < Offset(s, c - 1) {
        InConfigOrder(s, c - 1, m);
      }
      RowUnique(front + [BaseVolume(c - 1)], s, Offset(s, c - 1), Count(s, c - 1));
    }
  }

  lemma BaseUnique(s: Site)
    ensures Unique(BaseOrder(s))
    ensures forall m :: m in BaseOrder(s) ==> !m.K8sPrime? && !m.KubeConfig? && !m.Admin? && !m.Worker?
  {
    ConfigsUnique(s, |s.unit.config|);
    InConfigOrder(s, |s.unit.config|, SshConfig);
    UniqueSnoc(ConfigOrder(s, |s.unit.config|), SshConfig);
    forall m | m in BaseOrder(s) ensures !m.K8sPrime? && !m.KubeConfig? && !m.Admin? && !m.Worker? {
      InBaseOrder(s, m);
    }
  }

  lemma {:induction false} AdminsUnique(o: seq<Node>, vms: seq<nat>)
    requires Unique(o) && Increasing(vms) && forall v :: v in vms ==> Admin(v) !in o
    ensures Unique(o + Admins(vms))
  {
    if |vms| == 0 {
      assert o + Admins(vms) == o;
    } else {
      var front, last := vms[..|vms| - 1], vms[|vms| - 1];
      AdminsUnique(o, front);
      UniqueSnoc(o + Admins(front), Admin(last));
      assert o + Admins(front) + [Admin(last)] == o + Admins(vms);
    }
  }

  lemma {:induction false} WorkersUnique(o: seq<Node>, vms: seq<nat>)
    requires Unique(o) && Increasing(vms) && forall v :: v in vms ==> Worker(v) !in o
    ensures Unique(o + Workers(vms))
  {
    if |vms| == 0 {
      assert o + Workers(vms) == o;
    } else {
      var front, last := vms[..|vms| - 1], vms[|vms| - 1];
      WorkersUnique(o, front);
      UniqueSnoc(o + Workers(front), Worker(last));
      assert o + Workers(front) + [Worker(last)] == o + Workers(vms);
    }
  }

  lemma InstallsUnique(o: seq<Node>, ds: seq<nat>, ags: seq<nat>)
    requires Unique(o) && Increasing(ds) && Increasing(ags)
    requires forall m :: m in o ==> !m.K8sPrime? && !m.KubeConfig? && !m.Admin? && !m.Worker?
    ensures Unique(o + [K8sPrime] + [KubeConfig] + Admins(ds) + Workers(ags))
  {
    UniqueSnoc(o, K8sPrime);
    UniqueSnoc(o + [K8sPrime], KubeConfig);
    AdminsUnique(o + [K8sPrime] + [KubeConfig], ds);
    WorkersUnique(o + [K8sPrime] + [KubeConfig] + Admins(ds), ags);
  }

  lemma NamedIncrease(s: Site, name: string)
    ensures Increasing(Named(s, name))
  {
    GroupHoldsExactly(s.unit.config, name);
  }

  lemma K8sUnique(o: seq<Node>, s: Site)
    requires Unique(o) && forall m :: m in o ==> !m.K8sPrime? && !m.KubeConfig? && !m.Admin? && !m.Worker?
    ensures Unique(K8sOrder(o, s))
  {
    NamedIncrease(s, "default");
    NamedIncrease(s, "agent");
    InstallsUnique(o, Named(s, "default"), Named(s, "agent"));
  }

  lemma StepUnique(o: seq<Node>, hf: string, i: nat)
    requires Unique(o) && VipHack(i) !in o && Apply(i) !in o && VipConfig(i) !in o
    ensures Unique(o + StepNodes(hf, i))
  {
    UniqueSnoc(o, Apply(i));
    if IsHacked(hf) {
      UniqueSnoc(o, VipHack(i));
      UniqueSnoc(o + [VipHack(i)], Apply(i));
      assert o + StepNodes(hf, i) == o + [VipHack(i)] + [Apply(i)];
    } else if hf == "kube-vip" {
      UniqueSnoc(o + [Apply(i)], VipConfig(i));
      assert o + StepNodes(hf, i) == o + [Apply(i)] + [VipConfig(i)];
    }
  }

  lemma HelmFresh(o: seq<Node>, s: Site, i: nat)
    requires i <= |s.unit.helmfiles| && Helms(s)
    requires forall m :: m in o ==> !m.VipHack? && !m.Apply? && !m.VipConfig?
    ensures VipHack(i) !in HelmOrder(o, s, i) && Apply(i) !in HelmOrder(o, s, i) && VipConfig(i) !in HelmOrder(o, s, i)
  {
    InHelmOrder(o, s, i, VipHack(i));
    InHelmOrder(o, s, i, Apply(i));
    InHelmOrder(o, s, i, VipConfig(i));
  }

  lemma {:induction false} HelmUnique(o: seq<Node>, s: Site, i: nat)
    requires i <= |s.unit.helmfiles| && Helms(s) && Unique(o)
    requires forall m :: m in o ==> !m.VipHack? && !m.Apply? && !m.VipConfig?
    ensures Unique(HelmOrder(o, s, i))
  {
    if i > 0 {
      HelmUnique(o, s, i - 1);
      HelmFresh(o, s, i - 1);
      StepUnique(HelmOrder(o, s, i - 1), s.unit.helmfiles[i - 1], i - 1);
    }
  }

  /** Each resource is registered once. */
  lemma OrderUnique(s: Site)
    ensures Unique(Order(s)) && forall i, j :: 0 <= i < j < |Order(s)| ==> Order(s)[i] != Order(s)[j]
  {
    BaseUnique(s);
    if IsK8s(s) {
      K8sUnique(BaseOrder(s), s);
    }
    if Helms(s) {
      forall m | m in ClusterOrder(s) ensures !m.VipHack? && !m.Apply? && !m.VipConfig? {
        InClusterOrder(s, m);
      }
      HelmUnique(ClusterOrder(s), s, |s.unit.helmfiles|);
    }
    forall i, j | 0 <= i < j < |Order(s)| ensures Order(s)[i] != Order(s)[j] {
      UniqueMeans(Order(s), i, j);
    }
  }
}
