/** Building the graph of a unit: nested loops that append to dependency slices
    and hand slices, not copies, to each registered resource. */
module UnitBuilder {
  import opened Units
  import opened GoSlices
  import opened Graph
  import opened RegistrationOrder
  import opened Images
  import opened Capacity
  import opened RoomTable
  import opened GoGrowth

  /** What the engine keeps of a registration: the DependsOn slice itself. */
  datatype Registration = Registration(dependsOn: Slice, uses: seq<Node>)

  /** The contents of the four dependency slices, and the capacity of vmDepends. */
  datatype Lists = Lists(vm: seq<Node>, cap: nat, file: seq<Node>, pkg: seq<Node>, k8s: seq<Node>)

  /** The resources registered with the k8s slice while it is one longer than vmDepends. */
  predicate Joins(m: Node) {
    m.KubeConfig? || m.Admin? || m.Worker?
  }

  /** What the graph reads as: every list made from the k8s slice ends in K8sPrime,
      unless the k8s slice is appended to vmDepends in place; then the slot holds
      the first resource of vmDepends. */
  function Read(s: Site, grow: Growth): Variant {
    Variant(if HasRoom(s, grow) then AllVmDeps(s, false)[0] else K8sPrime, false)
  }

  // ---- The invariant of the builder ----

  function Lookup(m: map<string, seq<nat>>, name: string): seq<nat> {
    if name in m then m[name] else []
  }

  /** A machine is numbered by its place. */
  predicate Numbered(vms: seq<nat>) {
    forall i :: 0 <= i < |vms| ==> vms[i] == i
  }

  /** The lists once v machines are built, and the capacity of vmDepends. */
  function ListsAt(s: Site, v: nat, cap: nat): Lists {
    Lists(VmDeps(s.inputs, false, v), cap, FileDeps(s.inputs, false, v), PkgDeps(s.unit.online, v), [])
  }

  /** The lists while machine v is being built: its remote check is on vmDepends. */
  function Begun(s: Site, v: nat, cap: nat): Lists {
    ListsAt(s, v + 1, cap).(vm := VmDeps(s.inputs, false, v) + [RemoteOk(v)])
  }

  /** The resources that a connection to the prime uses. Without a prime its address is unknown. */
  function AddressOf(prime: Option<nat>): seq<Node> {
    if prime.Some? then [Domain(prime.value)] else []
  }

  /** The helmfile commands wait for `base` and the steps before them, or for the k8s
      slice, and connect to this prime. */
  ghost predicate Prepared(s: Site, w: Variant, prime: Option<nat>, base: seq<Node>, k8s: seq<Node>) {
    forall m :: Registered(s, m) ==> PreparedFor(s, w, prime, base, k8s, m)
  }

  ghost predicate PreparedFor(s: Site, w: Variant, prime: Option<nat>, base: seq<Node>, k8s: seq<Node>, m: Node)
    requires Registered(s, m)
  {
    && (m.VipHack? || m.Apply? ==> DependsOn(s, w, m) == StepsFrom(base, s.unit.helmfiles, m.step))
    && (m.VipConfig? ==> DependsOn(s, w, m) == k8s)
    && (m.VipHack? || m.VipConfig? ==> Uses(s, m) == AddressOf(prime))
  }

  lemma BeforeHelmPrepares(s: Site, w: Variant, m: Node)
    requires Registered(s, m)
    ensures PreparedFor(s, w, Prime(s), BeforeHelm(s, w), K8sDeps(s, w), m)
  {
  }

  /** The machines before v are filed, as prime or by name. */
  ghost predicate Filed(s: Site, v: nat, prime: Option<nat>, unitMap: map<string, seq<nat>>) {
    && v <= |Machines(s)|
    && prime == PrimeAfter(s.unit.config, Machines(s), v)
    && (forall name :: Lookup(unitMap, name) == FiledAfter(s.unit.config, Machines(s), name, v))
  }

  /** A registered resource reads as the declared graph says. */
  ghost predicate Right(s: Site, w: Variant, mem: Memory<Node>, m: Node, r: Registration) {
    Ok(mem, r.dependsOn) && Registered(s, m) && Contents(mem, r.dependsOn) == DependsOn(s, w, m) && r.uses == Uses(s, m)
  }

  /** The slices exist and hold the lists; the file and package slices have arrays
      of their own that no registered slice shares; every registration is right. */
  ghost predicate Shaped(s: Site, w: Variant, mem: Memory<Node>, resources: map<Node, Registration>,
                         vm: Slice, file: Slice, pkg: Slice, k8s: Slice, lists: Lists)
  {
    && Ok(mem, vm) && Ok(mem, file) && Ok(mem, pkg) && Ok(mem, k8s)
    && file.data != pkg.data && vm.data != file.data && vm.data != pkg.data
    && k8s.data != file.data && k8s.data != pkg.data
    && lists == Lists(Contents(mem, vm), Cap(mem, vm), Contents(mem, file), Contents(mem, pkg), Contents(mem, k8s))
    && (forall m :: m in resources ==>
          && Right(s, w, mem, m, resources[m])
          && resources[m].dependsOn.data != file.data && resources[m].dependsOn.data != pkg.data)
  }

  /** No slice handed out reaches past the end of vmDepends in its array. */
  ghost predicate Settled(s: Site, w: Variant, mem: Memory<Node>, resources: map<Node, Registration>,
                          vm: Slice, file: Slice, pkg: Slice, k8s: Slice, lists: Lists)
  {
    && Shaped(s, w, mem, resources, vm, file, pkg, k8s, lists)
    && Within(k8s, vm)
    && forall m :: m in resources ==> Within(resources[m].dependsOn, vm)
  }

  /** Between the append to k8sDepends and the append of it to vmDepends: the k8s
      slice is one longer, in the same array exactly if the capacity allowed it. */
  ghost predicate Forked(s: Site, mem: Memory<Node>, resources: map<Node, Registration>,
                         vm: Slice, file: Slice, pkg: Slice, k8s: Slice, lists: Lists)
  {
    && Shaped(s, INTENDED, mem, resources, vm, file, pkg, k8s, lists)
    && k8s.len == vm.len + 1 && (k8s.data == vm.data <==> k8s.len <= Cap(mem, vm))
    && forall m :: m in resources ==>
         !m.VipConfig? && if Joins(m) then resources[m].dependsOn == k8s else Within(resources[m].dependsOn, vm)
  }

  /** Appending to vmDepends leaves memory settled, whether or not it is in place. */
  lemma GrowVm(s: Site, w: Variant, mem: Memory<Node>, after: Memory<Node>, resources: map<Node, Registration>,
               vm: Slice, longer: Slice, file: Slice, pkg: Slice, k8s: Slice, lists: Lists, xs: seq<Node>)
    requires Settled(s, w, mem, resources, vm, file, pkg, k8s, lists)
    requires forall t :: Ok(mem, t) ==> Ok(after, t)
    requires forall t :: Ok(mem, t) && Within(t, vm) ==> Contents(after, t) == Contents(mem, t)
    requires Ok(after, longer) && Contents(after, longer) == lists.vm + xs && longer.len == vm.len + |xs|
    requires longer.data == vm.data || longer.data == |mem|
    ensures Settled(s, w, after, resources, longer, file, pkg, k8s,
                    lists.(vm := lists.vm + xs, cap := Cap(after, longer)))
  {
    forall m | m in resources ensures Right(s, w, after, m, resources[m]) && Within(resources[m].dependsOn, longer) {
      assert Ok(mem, resources[m].dependsOn);
    }
  }

  /** So does appending to fileDepends, whose array no other slice shares. */
  lemma GrowFile(s: Site, w: Variant, mem: Memory<Node>, after: Memory<Node>, resources: map<Node, Registration>,
                 vm: Slice, file: Slice, longer: Slice, pkg: Slice, k8s: Slice, lists: Lists, xs: seq<Node>)
    requires Settled(s, w, mem, resources, vm, file, pkg, k8s, lists)
    requires forall t :: Ok(mem, t) ==> Ok(after, t)
    requires forall t :: Ok(mem, t) && Within(t, file) ==> Contents(after, t) == Contents(mem, t)
    requires Ok(after, longer) && Contents(after, longer) == lists.file + xs
    requires longer.data == file.data || longer.data == |mem|
    requires Cap(after, vm) == Cap(mem, vm)
    ensures Settled(s, w, after, resources, vm, longer, pkg, k8s, lists.(file := lists.file + xs))
  {
    forall m | m in resources
      ensures Right(s, w, after, m, resources[m]) && resources[m].dependsOn.data != longer.data
    {
      assert Ok(mem, resources[m].dependsOn);
    }
  }

  lemma GrowPkg(s: Site, w: Variant, mem: Memory<Node>, after: Memory<Node>, resources: map<Node, Registration>,
                vm: Slice, file: Slice, pkg: Slice, longer: Slice, k8s: Slice, lists: Lists, xs: seq<Node>)
    requires Settled(s, w, mem, resources, vm, file, pkg, k8s, lists)
    requires forall t :: Ok(mem, t) ==> Ok(after, t)
    requires forall t :: Ok(mem, t) && Within(t, pkg) ==> Contents(after, t) == Contents(mem, t)
    requires Ok(after, longer) && Contents(after, longer) == lists.pkg + xs
    requires longer.data == pkg.data || longer.data == |mem|
    requires Cap(after, vm) == Cap(mem, vm)
    ensures Settled(s, w, after, resources, vm, file, longer, k8s, lists.(pkg := lists.pkg + xs))
  {
    forall m | m in resources
      ensures Right(s, w, after, m, resources[m]) && resources[m].dependsOn.data != longer.data
    {
      assert Ok(mem, resources[m].dependsOn);
    }
  }

  /** A right registration of a slice within vmDepends keeps memory settled. */
  lemma AddRegistration(s: Site, w: Variant, mem: Memory<Node>, resources: map<Node, Registration>,
                        vm: Slice, file: Slice, pkg: Slice, k8s: Slice, lists: Lists, m: Node, r: Registration)
    requires Settled(s, w, mem, resources, vm, file, pkg, k8s, lists)
    requires Right(s, w, mem, m, r) && Within(r.dependsOn, vm)
    requires r.dependsOn.data != file.data && r.dependsOn.data != pkg.data
    ensures Settled(s, w, mem, resources[m := r], vm, file, pkg, k8s, lists)
  {
  }

  /** So does a new array. */
  lemma AddArray(s: Site, w: Variant, mem: Memory<Node>, resources: map<Node, Registration>,
                 vm: Slice, file: Slice, pkg: Slice, k8s: Slice, lists: Lists, deps: seq<Node>)
    requires Settled(s, w, mem, resources, vm, file, pkg, k8s, lists)
    ensures Settled(s, w, mem + [deps], resources, vm, file, pkg, k8s, lists)
  {
    forall m | m in resources ensures Right(s, w, mem + [deps], m, resources[m]) {
      assert Ok(mem, resources[m].dependsOn);
    }
  }

  class Builder {
    const site: Site
    const grow: Growth
    var memory: Memory<Node>
    var resources: map<Node, Registration>
    var vmDomains: seq<nat>
    var vmDepends: Slice
    var fileDepends: Slice
    var pkgInstalls: Slice
    var k8sDepends: Slice
    var prime: Option<nat>
    var unitMap: map<string, seq<nat>>
    ghost var lists: Lists     // the contents of the slices
    ghost var order: seq<Node> // the resources registered so far
    ghost var w: Variant       // the variant of the graph they read as
    ghost var caps: seq<nat>   // the capacity of vmDepends after each machine

    /** Memory is laid out so that appending changes nothing handed out. The
        comparison with true keeps the prover from taking Settled apart. */
    ghost predicate Valid()
      reads this`memory, this`resources, this`order, this`lists, this`w
      reads this`vmDepends, this`fileDepends, this`pkgInstalls, this`k8sDepends
    {
      && Sufficient(grow)
      && Settled(site, w, memory, resources, vmDepends, fileDepends, pkgInstalls, k8sDepends, lists) == true
      && (forall m :: m in resources <==> m in order)
    }

    constructor (site: Site, grow: Growth)
      requires Sufficient(grow)
      ensures this.site == site && this.grow == grow
      ensures Valid() && lists == Lists([], 0, [], [], []) && order == [] && w == INTENDED
      ensures vmDomains == [] && prime == None && unitMap == map[] && caps == [0]
    {
      this.site, this.grow := site, grow;
      memory := [[], [], []];
      vmDepends, fileDepends, pkgInstalls, k8sDepends := Slice(0, 0), Slice(1, 0), Slice(2, 0), Slice(0, 0);
      resources, vmDomains, prime, unitMap := map[], [], None, map[];
      lists, order, w, caps := Lists([], 0, [], [], []), [], INTENDED, [0];
    }

    /** DependsOn(vmDepends). */
    method RegisterVm(m: Node, uses: seq<Node>)
      requires Valid() && Registered(site, m) && lists.vm == DependsOn(site, w, m) && uses == Uses(site, m)
      modifies this`resources, this`order
      ensures Valid() && order == old(order) + [m]
    {
      var r := Registration(vmDepends, uses);
      AddRegistration(site, w, memory, resources, vmDepends, fileDepends, pkgInstalls, k8sDepends, lists, m, r);
      resources := resources[m := r];
      order := order + [m];
    }

    /** DependsOn(k8sDepends). */
    method RegisterK8s(m: Node, uses: seq<Node>)
      requires Valid() && Registered(site, m) && lists.k8s == DependsOn(site, w, m) && uses == Uses(site, m)
      modifies this`resources, this`order
      ensures Valid() && order == old(order) + [m]
    {
      var r := Registration(k8sDepends, uses);
      AddRegistration(site, w, memory, resources, vmDepends, fileDepends, pkgInstalls, k8sDepends, lists, m, r);
      resources := resources[m := r];
      order := order + [m];
    }

    /** DependsOn of a slice literal, which has an array of its own. */
    method RegisterAfter(m: Node, deps: seq<Node>, uses: seq<Node>)
      requires Valid() && Registered(site, m) && deps == DependsOn(site, w, m) && uses == Uses(site, m)
      modifies this`memory, this`resources, this`order
      ensures Valid() && order == old(order) + [m]
    {
      var r := Registration(Slice(|memory|, |deps|), uses);
      AddArray(site, w, memory, resources, vmDepends, fileDepends, pkgInstalls, k8sDepends, lists, deps);
      memory := memory + [deps];
      assert deps[..|deps|] == deps;
      AddRegistration(site, w, memory, resources, vmDepends, fileDepends, pkgInstalls, k8sDepends, lists, m, r);
      resources := resources[m := r];
      order := order + [m];
    }

    /** Appending to vmDepends, in place or not, changes no slice handed out before. */
    method AppendVm(xs: seq<Node>)
      requires Valid()
      modifies this`memory, this`vmDepends, this`lists
      ensures Valid()
      ensures lists == old(lists).(vm := old(lists).vm + xs, cap := NewCap(old(lists).cap, |old(lists).vm|, |xs|, grow))
    {
      var r := Append(memory, vmDepends, xs, grow, SshConfig);
      GrowVm(site, w, memory, r.0, resources, vmDepends, r.1, fileDepends, pkgInstalls, k8sDepends, lists, xs);
      memory, vmDepends := r.0, r.1;
      lists := lists.(vm := lists.vm + xs, cap := Cap(memory, vmDepends));
    }

    method AppendFile(xs: seq<Node>)
      requires Valid()
      modifies this`memory, this`fileDepends, this`lists
      ensures Valid() && lists == old(lists).(file := old(lists).file + xs)
    {
      var r := Append(memory, fileDepends, xs, grow, SshConfig);
      GrowFile(site, w, memory, r.0, resources, vmDepends, fileDepends, r.1, pkgInstalls, k8sDepends, lists, xs);
      memory, fileDepends := r.0, r.1;
      lists := lists.(file := lists.file + xs);
    }

    method AppendPkg(xs: seq<Node>)
      requires Valid()
      modifies this`memory, this`pkgInstalls, this`lists
      ensures Valid() && lists == old(lists).(pkg := old(lists).pkg + xs)
    {
      var r := Append(memory, pkgInstalls, xs, grow, SshConfig);
      GrowPkg(site, w, memory, r.0, resources, vmDepends, fileDepends, pkgInstalls, r.1, k8sDepends, lists, xs);
      memory, pkgInstalls := r.0, r.1;
      lists := lists.(pkg := lists.pkg + xs);
    }

    // ---- The loops over configs and machines ----

    /** The disks and the domain of machine v. */
    method BuildDomain(c: nat, v: nat)
      requires Valid() && w == INTENDED && v < |Machines(site)| && Machines(site)[v].config == c
      modifies this`memory, this`resources, this`order, this`vmDomains
      ensures Valid() && vmDomains == old(vmDomains) + [v] && order == DomainOrder(old(order), v)
    {
      RegisterAfter(Disk(v), [], [BaseVolume(c)]);
      RegisterAfter(CloudInit(v), [], []);
      RegisterAfter(Domain(v), [], [Disk(v), CloudInit(v)]);
      vmDomains := vmDomains + [v];
      assert order == DomainOrder(old(order), v);
    }

    /** The checks that machine v answers, the remote binary, and the motd. */
    method CheckVm(v: nat)
      requires Valid() && w == INTENDED && v < |Machines(site)|
      modifies this`memory, this`vmDepends, this`lists, this`resources, this`order
      ensures Valid() && order == CheckOrder(old(order), v)
      ensures lists == old(lists).(vm := old(lists).vm + [RemoteOk(v)],
                                   cap := NewCap(old(lists).cap, |old(lists).vm|, 1, grow))
    {
      RegisterAfter(SshKey(v), [Domain(v)], [Domain(v)]);
      RegisterAfter(CopyRemote(v), [SshKey(v)], [Domain(v)]);
      RegisterAfter(RemoteOk(v), [SshKey(v), CopyRemote(v)], [Domain(v)]);
      AppendVm([RemoteOk(v)]);
      RegisterAfter(Motd(v), [SshKey(v)], [Domain(v)]);
      assert order == CheckOrder(old(order), v);
    }

    /** The packages of an online machine wait for vmDepends as it is at this point. */
    method InstallPackages(v: nat)
      requires Valid() && w == INTENDED && v < |Machines(site)| && site.unit.online
      requires lists.vm == VmDeps(site.inputs, false, v) + [RemoteOk(v)]
      modifies this`memory, this`pkgInstalls, this`lists, this`resources, this`order
      ensures Valid() && order == old(order) + [ZypperIn(v), EnableIscsi(v)]
      ensures lists == old(lists).(pkg := old(lists).pkg + [ZypperIn(v)] + [EnableIscsi(v)])
    {
      RegisterVm(ZypperIn(v), [Domain(v)]);
      AppendPkg([ZypperIn(v)]);
      RegisterAfter(EnableIscsi(v), [ZypperIn(v)], [Domain(v)]);
      AppendPkg([EnableIscsi(v)]);
    }

    /** The logs of machine v; nothing waits for them. */
    method FetchLogs(v: nat)
      requires Valid() && w == INTENDED && v < |Machines(site)|
      requires lists.vm == VmDeps(site.inputs, false, v) + [RemoteOk(v)]
      modifies this`resources, this`order
      ensures Valid() && order == old(order) + [CiLog(v, 0), CiLog(v, 1)]
    {
      RegisterVm(CiLog(v, 0), [Domain(v)]);
      RegisterVm(CiLog(v, 1), [Domain(v)]);
    }

    method SendInput(v: nat, f: nat)
      requires Valid() && w == INTENDED && v < |Machines(site)| && f < |site.inputs| && site.inputs[f].dest != ""
      modifies this`memory, this`fileDepends, this`lists, this`resources, this`order
      ensures Valid() && order == old(order) + [CopyInput(v, f)] + [InstallInput(v, f)]
      ensures lists == old(lists).(file := old(lists).file + [InstallInput(v, f)])
    {
      RegisterAfter(CopyInput(v, f), [], [Domain(v)]);
      RegisterAfter(InstallInput(v, f), [CopyInput(v, f)], [Domain(v)]);
      AppendFile([InstallInput(v, f)]);
    }

    /** Copying and installing every input that has a destination. */
    method SendInputs(v: nat)
      requires Valid() && w == INTENDED && v < |Machines(site)|
      modifies this`memory, this`fileDepends, this`lists, this`resources, this`order
      ensures Valid() && order == InputOrder(old(order), site.inputs, v, |site.inputs|)
      ensures lists == old(lists).(file := old(lists).file + Installs(site.inputs, v, |site.inputs|))
    {
      var f := 0;
      while f < |site.inputs|
        invariant f <= |site.inputs| && Valid() && order == InputOrder(old(order), site.inputs, v, f)
        invariant lists == old(lists).(file := old(lists).file + Installs(site.inputs, v, f))
      {
        if site.inputs[f].dest != "" {
          SendInput(v, f);
        }
        f := f + 1;
      }
    }

    /** The state between two machines. */
    ghost predicate AtVm(v: nat)
      reads this
    {
      Valid() && w == INTENDED && lists == ListsAt(site, v, lists.cap) && |vmDomains| == v && Numbered(vmDomains)
      && Filed(site, v, prime, unitMap)
      && IsHistory(Sent(site.inputs, |site.inputs|), grow, caps, v, lists.cap)
    }

    /** A first machine of a config named "default" becomes the prime, any other is filed under its config's name. */
    method File(c: nat, idx: nat, v: nat)
      requires v < |Machines(site)| && Machines(site)[v] == Vm(c, idx) && Filed(site, v, prime, unitMap)
      modifies this`prime, this`unitMap
      ensures Filed(site, v + 1, prime, unitMap)
    {
      var name := site.unit.config[c].name;
      if name == "default" && idx == 0 {
        prime := Some(v);
      } else {
        unitMap := unitMap[name := Lookup(unitMap, name) + [v]];
      }
      forall n ensures Lookup(unitMap, n) == FiledAfter(site.unit.config, Machines(site), n, v + 1) {
        assert Lookup(old(unitMap), n) == FiledAfter(site.unit.config, Machines(site), n, v);
      }
    }

    /** What is registered for machine v up to its motd. */
    method CheckMachine(c: nat, v: nat)
      requires Valid() && w == INTENDED && v < |Machines(site)| && Machines(site)[v].config == c
      modifies this`memory, this`vmDepends, this`lists, this`resources, this`order, this`vmDomains
      ensures Valid() && vmDomains == old(vmDomains) + [v] && order == CheckOrder(DomainOrder(old(order), v), v)
      ensures lists == old(lists).(vm := old(lists).vm + [RemoteOk(v)],
                                   cap := NewCap(old(lists).cap, |old(lists).vm|, 1, grow))
    {
      BuildDomain(c, v);
      CheckVm(v);
    }

    /** Everything registered for machine v. */
    method RegisterMachine(c: nat, v: nat)
      requires Valid() && w == INTENDED && v < |Machines(site)| && Machines(site)[v].config == c
      requires lists == ListsAt(site, v, lists.cap)
      modifies this`memory, this`vmDepends, this`fileDepends, this`pkgInstalls
      modifies this`lists, this`resources, this`order, this`vmDomains
      ensures Valid() && vmDomains == old(vmDomains) + [v] && order == VmOrder(old(order), site, v)
      ensures lists == Begun(site, v, NewCap(old(lists).cap, |old(lists).vm|, 1, grow))
    {
      CheckMachine(c, v);
      BeginVm(v);
      SendInputs(v);
    }

    /** Packages if online, and logs. */
    method BeginVm(v: nat)
      requires Valid() && w == INTENDED && v < |Machines(site)|
      requires lists.vm == VmDeps(site.inputs, false, v) + [RemoteOk(v)] && lists.pkg == PkgDeps(site.unit.online, v)
      modifies this`memory, this`pkgInstalls, this`lists, this`resources, this`order
      ensures Valid() && order == PackageOrder(old(order), site.unit.online, v)
      ensures lists == old(lists).(pkg := PkgDeps(site.unit.online, v + 1))
    {
      if site.unit.online {
        InstallPackages(v);
      }
      FetchLogs(v);
    }

    /** What later resources wait for: the motd of machine v and every file install so far. */
    method Gather(v: nat)
      requires Valid() && lists == Begun(site, v, lists.cap)
      modifies this`memory, this`vmDepends, this`lists
      ensures Valid() && lists == ListsAt(site, v + 1, lists.cap)
      ensures var n := |VmDeps(site.inputs, false, v)|;
              lists.cap
              == NewCap(NewCap(old(lists).cap, n + 1, 1, grow), n + 2, |FileDeps(site.inputs, false, v + 1)|, grow)
    {
      AppendVm([Motd(v)]);
      AppendVm(Contents(memory, fileDepends));
    }

    /** One turn of the loop over the count. */
    method BuildVm(c: nat, v: nat)
      requires Valid() && w == INTENDED && v < |Machines(site)| && Machines(site)[v].config == c
      requires lists == ListsAt(site, v, lists.cap)
      modifies this`memory, this`vmDepends, this`fileDepends, this`pkgInstalls
      modifies this`lists, this`resources, this`order, this`vmDomains
      ensures Valid() && vmDomains == old(vmDomains) + [v] && order == VmOrder(old(order), site, v)
      ensures lists == ListsAt(site, v + 1, NextCap(Sent(site.inputs, |site.inputs|), grow, v, old(lists).cap))
    {
      RegisterMachine(c, v);
      Gather(v);
      NextCapUnrolls(site.inputs, grow, v, old(lists).cap);
    }

    method Turn(c: nat, idx: nat, ghost v: nat)
      requires AtVm(v) && v < |Machines(site)| && Machines(site)[v] == Vm(c, idx)
      modifies this
      ensures AtVm(v + 1) && order == VmOrder(old(order), site, v)
    {
      var number := |vmDomains|;
      BuildVm(c, number);
      File(c, idx, number);
      LongerHistory(Sent(site.inputs, |site.inputs|), grow, caps, v, lists.cap);
      caps := caps + [lists.cap];
    }

    /** A turn that extends the row of the machines from base on. */
    method TurnInRow(c: nat, idx: nat, ghost first: seq<Node>, ghost base: nat)
      requires AtVm(base + idx) && base + idx < |Machines(site)| && Machines(site)[base + idx] == Vm(c, idx)
      requires order == RowOrder(first, site, base, idx)
      modifies this
      ensures AtVm(base + (idx + 1)) && order == RowOrder(first, site, base, idx + 1)
    {
      Turn(c, idx, base + idx);
    }

    /** The machines of one config. */
    method BuildRow(c: nat, ghost base: nat)
      requires c < |site.unit.config| && AtVm(base) && RowAt(site, c, base)
      modifies this
      ensures AtVm(base + Count(site, c)) && order == RowOrder(old(order), site, base, Count(site, c))
    {
      var idx := 0;
      while idx < site.unit.config[c].count
        invariant 0 <= idx <= Count(site, c) && AtVm(base + idx) && order == RowOrder(old(order), site, base, idx)
      {
        TurnInRow(c, idx, old(order), base);
        idx := idx + 1;
      }
      assert idx == Count(site, c);
    }

    /** One config: its base volume, then its machines. */
    method BuildConfig(c: nat, ghost base: nat)
      requires c < |site.unit.config| && AtVm(base) && RowAt(site, c, base)
      modifies this
      ensures AtVm(base + Count(site, c)) && order == RowOrder(old(order) + [BaseVolume(c)], site, base, Count(site, c))
    {
      BuildBase(c, base);
      BuildRow(c, base);
    }

    method BuildBase(c: nat, ghost v: nat)
      requires c < |site.unit.config| && AtVm(v)
      modifies this`memory, this`resources, this`order
      ensures AtVm(v) && order == old(order) + [BaseVolume(c)]
    {
      RegisterAfter(BaseVolume(c), [], []);
    }

    /** A config that extends what the configs before it registered. */
    method BuildNextConfig(c: nat)
      requires c < |site.unit.config| && AtVm(Offset(site, c)) && order == ConfigOrder(site, c)
      modifies this
      ensures AtVm(Offset(site, c + 1)) && order == ConfigOrder(site, c + 1)
    {
      NextRow(site, c);
      BuildConfig(c, Offset(site, c));
    }

    /** The loops over configs and counts, up to the first config whose image is not linked. */
    method BuildVms(dir: Directory) returns (c: nat)
      requires AtVm(0) && order == []
      modifies this
      ensures Reaches(dir, site.unit.config, c) && AtVm(Offset(site, c)) && order == ConfigOrder(site, c)
    {
      c := 0;
      var taken := dir.taken;
      while c < |site.unit.config|
        invariant c <= |site.unit.config| && taken == TakenAfter(dir, site.unit.config, c)
        invariant forall d :: 0 <= d < c ==> Links(dir, site.unit.config, d)
        invariant AtVm(Offset(site, c)) && order == ConfigOrder(site, c)
      {
        var path := dir.path(site.unit.config[c].name);
        if !dir.works(c) || path in taken {
          return;
        }
        taken := taken + {path};
        BuildNextConfig(c);
        c := c + 1;
      }
    }

    // ---- After the loops ----

    /** One ssh config for all machines. */
    method WriteSshConfig()
      requires Valid() && w == INTENDED && lists.vm == AllVmDeps(site, false)
      requires |vmDomains| == |Machines(site)| && Numbered(vmDomains)
      modifies this`resources, this`order
      ensures Valid() && order == old(order) + [SshConfig]
    {
      var uses, idx := [], 0;
      while idx < |vmDomains|
        invariant idx <= |vmDomains| && uses == Domains(idx)
      {
        uses := uses + [Domain(vmDomains[idx])];
        idx := idx + 1;
      }
      RegisterVm(SshConfig, uses);
    }

    ghost predicate Joining()
      reads this
    {
      && Sufficient(grow) && w == INTENDED
      && Forked(site, memory, resources, vmDepends, fileDepends, pkgInstalls, k8sDepends, lists)
      && (forall m :: m in resources <==> m in order)
    }

    /** k8sDepends = append(k8sDepends, k8sInstall). */
    method Fork()
      requires Valid() && w == INTENDED && k8sDepends == vmDepends
      requires forall m :: m in order ==> !Joins(m) && !m.VipConfig?
      modifies this`memory, this`k8sDepends, this`lists
      ensures Joining() && lists == old(lists).(k8s := old(lists).k8s + [K8sPrime])
    {
      var r := Append(memory, k8sDepends, [K8sPrime], grow, SshConfig);
      memory, k8sDepends := r.0, r.1;
      lists := lists.(k8s := lists.k8s + [K8sPrime]);
    }

    /** The prime install, and the k8s slice with it appended. */
    method InstallPrime()
      requires Valid() && w == INTENDED && IsK8s(site) && prime == Prime(site)
      requires k8sDepends == vmDepends && lists.k8s == lists.vm == AllVmDeps(site, false)
      requires forall m :: m in order ==> !Joins(m) && !m.VipConfig?
      modifies this`memory, this`k8sDepends, this`lists, this`resources, this`order
      ensures Joining() && order == old(order) + [K8sPrime]
      ensures lists == old(lists).(k8s := old(lists).k8s + [K8sPrime])
    {
      RegisterK8s(K8sPrime, AddressOf(prime));
      Fork();
    }

    /** DependsOn(k8sDepends) while the slice is forked. */
    method RegisterJoin(m: Node, uses: seq<Node>)
      requires Joining() && Joins(m)
      requires Registered(site, m) && lists.k8s == DependsOn(site, INTENDED, m) && uses == Uses(site, m)
      modifies this`resources, this`order
      ensures Joining() && order == old(order) + [m]
    {
      resources := resources[m := Registration(k8sDepends, uses)];
      order := order + [m];
    }

    /** The other control-plane nodes. */
    method InstallAdmins() returns (installs: seq<Node>)
      requires Joining() && IsK8s(site) && prime == Prime(site)
      requires lists.k8s == K8sDeps(site, INTENDED) && Lookup(unitMap, "default") == Named(site, "default")
      modifies this`resources, this`order
      ensures Joining() && installs == Admins(Named(site, "default")) && order == old(order) + installs
    {
      var vms, i := Lookup(unitMap, "default"), 0;
      installs := [];
      while i < |vms|
        invariant i <= |vms| && Joining() && installs == Admins(vms[..i]) && order == old(order) + installs
      {
        RegisterJoin(Admin(vms[i]), [Domain(vms[i])] + AddressOf(prime));
        installs := installs + [Admin(vms[i])];
        i := i + 1;
      }
      assert vms[..i] == vms;
    }

    /** The agents. */
    method InstallWorkers() returns (installs: seq<Node>)
      requires Joining() && IsK8s(site) && prime == Prime(site)
      requires lists.k8s == K8sDeps(site, INTENDED) && Lookup(unitMap, "agent") == Named(site, "agent")
      modifies this`resources, this`order
      ensures Joining() && installs == Workers(Named(site, "agent")) && order == old(order) + installs
    {
      var vms, i := Lookup(unitMap, "agent"), 0;
      installs := [];
      while i < |vms|
        invariant i <= |vms| && Joining() && installs == Workers(vms[..i]) && order == old(order) + installs
      {
        RegisterJoin(Worker(vms[i]), [Domain(vms[i])] + AddressOf(prime));
        installs := installs + [Worker(vms[i])];
        i := i + 1;
      }
      assert vms[..i] == vms;
    }

    /** vmDepends = append(vmDepends, k8sDepends...). In place, it writes over the
        last slot of the k8s slice, and so over every list made from it. */
    method Absorb()
      requires Joining() && IsK8s(site)
      requires lists.vm == AllVmDeps(site, false) && lists.k8s == lists.vm + [K8sPrime]
      requires lists.cap == LoopCap(site, grow)
      modifies this`memory, this`vmDepends, this`lists, this`w
      ensures Valid() && w == Read(site, grow)
      ensures lists == Lists(old(lists).vm + old(lists).k8s,
                             NewCap(old(lists).cap, |old(lists).vm|, |old(lists).k8s|, grow),
                             old(lists).file, old(lists).pkg, K8sDeps(site, w))
    {
      var xs := Contents(memory, k8sDepends);
      var r := Append(memory, vmDepends, xs, grow, SshConfig);
      w := Read(site, grow);
      AppendUnforks(site, grow, memory, resources, vmDepends, fileDepends, pkgInstalls, k8sDepends, lists);
      memory, vmDepends := r.0, r.1;
      lists := lists.(vm := lists.vm + xs, cap := Cap(memory, vmDepends), k8s := K8sDeps(site, w));
    }

    /** The installs of the k8s block, all but the first waiting for the k8s slice. */
    method InstallCluster() returns (defaultInstalls: seq<Node>, workerInstalls: seq<Node>)
      requires Valid() && w == INTENDED && order == BaseOrder(site)
      requires lists.vm == AllVmDeps(site, false) && lists.cap == LoopCap(site, grow)
      requires IsK8s(site) && prime == Prime(site)
      requires Lookup(unitMap, "default") == Named(site, "default") && Lookup(unitMap, "agent") == Named(site, "agent")
      requires k8sDepends == vmDepends && lists.k8s == lists.vm
      modifies this`memory, this`k8sDepends, this`lists, this`resources, this`order
      ensures Joining() && order == ClusterOrder(site)
      ensures lists == old(lists).(k8s := old(lists).k8s + [K8sPrime])
      ensures defaultInstalls == Admins(Named(site, "default")) && workerInstalls == Workers(Named(site, "agent"))
    {
      NoClusterYet(site);
      InstallPrime();
      RegisterJoin(KubeConfig, AddressOf(prime));
      defaultInstalls := InstallAdmins();
      workerInstalls := InstallWorkers();
    }

    /** The k8s block. */
    method BuildCluster()
      requires Valid() && w == INTENDED && order == BaseOrder(site)
      requires lists.vm == AllVmDeps(site, false) && lists.cap == LoopCap(site, grow)
      requires IsK8s(site) && prime == Prime(site)
      requires Lookup(unitMap, "default") == Named(site, "default") && Lookup(unitMap, "agent") == Named(site, "agent")
      requires k8sDepends == vmDepends && lists.k8s == lists.vm
      modifies this`memory, this`vmDepends, this`k8sDepends, this`lists, this`resources, this`order, this`w
      ensures Valid() && w == Read(site, grow) && order == ClusterOrder(site)
      ensures lists.vm == AfterK8s(site, w) && lists.k8s == K8sDeps(site, w)
      ensures lists.file == old(lists).file && lists.pkg == old(lists).pkg
    {
      var defaultInstalls, workerInstalls := InstallCluster();
      Absorb();
      AppendVm(defaultInstalls);
      AppendVm(workerInstalls);
    }

    method RegisterHack(i: nat, ghost base: seq<Node>, ghost k8s: seq<Node>)
      requires Valid() && Registered(site, VipHack(i)) && Prepared(site, w, prime, base, k8s)
      requires lists.vm == StepsFrom(base, site.unit.helmfiles, i)
      modifies this`resources, this`order
      ensures Valid() && order == old(order) + [VipHack(i)]
    {
      assert PreparedFor(site, w, prime, base, k8s, VipHack(i));
      RegisterVm(VipHack(i), AddressOf(prime));
    }

    method RegisterApply(i: nat, ghost base: seq<Node>, ghost k8s: seq<Node>)
      requires Valid() && Registered(site, Apply(i)) && Prepared(site, w, prime, base, k8s)
      requires lists.vm == StepsFrom(base, site.unit.helmfiles, i)
      modifies this`resources, this`order
      ensures Valid() && order == old(order) + [Apply(i)]
    {
      assert PreparedFor(site, w, prime, base, k8s, Apply(i));
      RegisterVm(Apply(i), []);
    }

    /** The hack of a helmfile, if any, and its apply; neither waits for the other. */
    method RegisterStep(i: nat, ghost base: seq<Node>, ghost k8s: seq<Node>)
      requires Valid() && Helms(site) && i < |site.unit.helmfiles| && Prepared(site, w, prime, base, k8s)
      requires lists.vm == StepsFrom(base, site.unit.helmfiles, i)
      modifies this`resources, this`order
      ensures Valid()
      ensures order == old(order) + if IsHacked(site.unit.helmfiles[i]) then [VipHack(i), Apply(i)] else [Apply(i)]
    {
      if IsHacked(site.unit.helmfiles[i]) {
        RegisterHack(i, base, k8s);
      }
      RegisterApply(i, base, k8s);
    }

    /** The rewritten kubeconfig, which waits for the k8s slice only. */
    method RewriteKubeConfig(i: nat, ghost base: seq<Node>, ghost k8s: seq<Node>)
      requires Valid() && Helms(site) && i < |site.unit.helmfiles| && Prepared(site, w, prime, base, k8s)
      requires site.unit.helmfiles[i] == "kube-vip" && lists.k8s == k8s
      modifies this`memory, this`vmDepends, this`lists, this`resources, this`order
      ensures Valid() && order == old(order) + [VipConfig(i)]
      ensures lists.vm == old(lists).vm + [VipConfig(i)] && lists.k8s == k8s
    {
      assert PreparedFor(site, w, prime, base, k8s, VipConfig(i));
      RegisterK8s(VipConfig(i), AddressOf(prime));
      AppendVm([VipConfig(i)]);
    }

    /** One helmfile: its hack if any, the apply, and the rewritten kubeconfig if it is kube-vip. */
    method BuildStep(i: nat, ghost base: seq<Node>, ghost k8s: seq<Node>)
      requires Valid() && Helms(site) && i < |site.unit.helmfiles| && Prepared(site, w, prime, base, k8s)
      requires lists.vm == StepsFrom(base, site.unit.helmfiles, i) && lists.k8s == k8s
      modifies this`memory, this`vmDepends, this`lists, this`resources, this`order
      ensures Valid() && order == old(order) + StepNodes(site.unit.helmfiles[i], i)
      ensures lists.vm == StepsFrom(base, site.unit.helmfiles, i + 1) && lists.k8s == k8s
    {
      RegisterStep(i, base, k8s);
      AppendVm([Apply(i)]);
      if IsHacked(site.unit.helmfiles[i]) {
        AppendVm([VipHack(i)]);
      } else if site.unit.helmfiles[i] == "kube-vip" {
        RewriteKubeConfig(i, base, k8s);
      }
      assert lists.vm == old(lists).vm + StepDeps(site.unit.helmfiles[i], i);
    }

    /** The helmfile loop. */
    method BuildSteps(ghost base: seq<Node>, ghost k8s: seq<Node>)
      requires Valid() && Helms(site) && Prepared(site, w, prime, base, k8s) && lists.vm == base && lists.k8s == k8s
      modifies this`memory, this`vmDepends, this`lists, this`resources, this`order
      ensures Valid() && order == HelmOrder(old(order), site, |site.unit.helmfiles|)
    {
      var i := 0;
      while i < |site.unit.helmfiles|
        invariant i <= |site.unit.helmfiles| && Valid()
        invariant lists.vm == StepsFrom(base, site.unit.helmfiles, i) && lists.k8s == k8s
        invariant order == HelmOrder(old(order), site, i)
      {
        BuildStep(i, base, k8s);
        i := i + 1;
      }
    }

    /** The end of the loops: one ssh config, and the k8s slice aliasing vmDepends. */
    method CloseLoops()
      requires Valid() && w == INTENDED && order == ConfigOrder(site, |site.unit.config|)
      requires lists.vm == AllVmDeps(site, false) && |vmDomains| == |Machines(site)| && Numbered(vmDomains)
      modifies this`resources, this`order, this`k8sDepends, this`lists
      ensures Valid() && order == BaseOrder(site)
      ensures k8sDepends == vmDepends && lists == old(lists).(k8s := lists.vm)
    {
      WriteSshConfig();
      k8sDepends, lists := vmDepends, lists.(k8s := lists.vm);
    }

    /** The online block. */
    method BuildOnline()
      requires Valid() && site.unit.online && prime == Prime(site)
      requires lists.vm == AfterK8s(site, w) && lists.k8s == K8sDeps(site, w)
      requires lists.pkg == PkgDeps(site.unit.online, |Machines(site)|) && order == ClusterOrder(site)
      modifies this`memory, this`vmDepends, this`lists, this`resources, this`order
      ensures Valid() && order == Order(site)
    {
      AppendVm(Contents(memory, pkgInstalls));
      if site.unit.name == "upstream" && !site.noHelmfile {
        forall m | Registered(site, m) { BeforeHelmPrepares(site, w, m); }
        BuildSteps(BeforeHelm(site, w), lists.k8s);
      }
    }

    /** The ssh config and the k8s slice, after the last config. */
    method FinishLoops()
      requires AtVm(|Machines(site)|) && order == ConfigOrder(site, |site.unit.config|)
      modifies this`resources, this`order, this`k8sDepends, this`lists
      ensures Valid() && w == INTENDED && order == BaseOrder(site) && k8sDepends == vmDepends
      ensures lists.k8s == lists.vm == AllVmDeps(site, false)
      ensures lists.pkg == PkgDeps(site.unit.online, |Machines(site)|) && lists.cap == LoopCap(site, grow)
    {
      HistoryHolds(Sent(site.inputs, |site.inputs|), grow, caps, |Machines(site)|);
      CloseLoops();
    }

    /** The k8s and online blocks. */
    method BuildBlocks()
      requires Valid() && w == INTENDED && order == BaseOrder(site) && k8sDepends == vmDepends
      requires lists.k8s == lists.vm == AllVmDeps(site, false)
      requires lists.pkg == PkgDeps(site.unit.online, |Machines(site)|) && lists.cap == LoopCap(site, grow)
      requires prime == Prime(site)
      requires Lookup(unitMap, "default") == Named(site, "default") && Lookup(unitMap, "agent") == Named(site, "agent")
      modifies this`memory, this`vmDepends, this`k8sDepends, this`lists, this`resources, this`order, this`w
      ensures Valid() && order == Order(site) && w == Read(site, grow)
    {
      if site.unit.kind == "k8s" {
        BuildCluster();
      }
      if site.unit.online {
        BuildOnline();
      }
    }

    /** The whole of Unit, up to the first config whose image is not linked, if any. */
    method Build(dir: Directory) returns (c: nat)
      requires AtVm(0) && order == []
      modifies this
      ensures Valid() && Reaches(dir, site.unit.config, c)
      ensures c < |site.unit.config| ==> order == ConfigOrder(site, c) && w == INTENDED
      ensures c == |site.unit.config| ==> order == Order(site) && w == Read(site, grow)
      ensures c == |site.unit.config| ==> prime == Prime(site)
      ensures c == |site.unit.config| ==> forall name :: Lookup(unitMap, name) == Named(site, name)
    {
      c := BuildVms(dir);
      if c == |site.unit.config| {
        Finish();
      }
    }

    /** Everything after the loops. */
    method Finish()
      requires AtVm(|Machines(site)|) && order == ConfigOrder(site, |site.unit.config|)
      modifies this`memory, this`vmDepends, this`k8sDepends, this`lists, this`resources, this`order, this`w
      ensures Valid() && order == Order(site) && w == Read(site, grow)
      ensures prime == Prime(site) && forall name :: Lookup(unitMap, name) == Named(site, name)
    {
      FinishLoops();
      BuildBlocks();
    }
  }

  /** The graph of a unit that ends before config c: the volumes of the configs before
      it and the resources of their machines. */
  ghost predicate IsPart(s: Site, c: nat, g: map<Node, Resource>) {
    && c < |s.unit.config|
    && (forall m :: m in g <==>
          (m.BaseVolume? && m.config < c) || (OfVm(m) && m.vm < Offset(s, c) && Registered(s, m)))
    && (forall m :: m in g ==> Registered(s, m) && g[m] == Resource(DependsOn(s, INTENDED, m), Uses(s, m)))
  }

  /** Unit, as a whole: what the engine finds when it reads the slices it was
      given. If every config's image is linked, the graph is the declared one except
      for what the last slot of the k8s slice holds, and unless the growth policy
      leaves room, not even for that. Otherwise it is what comes before the first
      config whose image is not: its linking fails, or its path is taken. */
  method BuildUnit(site: Site, dir: Directory, grow: Growth) returns (c: nat, g: map<Node, Resource>)
    requires Sufficient(grow)
    ensures var cs := site.unit.config;
            && c <= |cs| && (c == |cs| <==> Completes(dir, cs))
            && (forall d :: 0 <= d < c ==>
                  && dir.works(d) && dir.path(cs[d].name) !in dir.taken
                  && forall e :: 0 <= e < d ==> dir.path(cs[e].name) != dir.path(cs[d].name))
            && (c < |cs| && dir.works(c) && dir.path(cs[c].name) !in dir.taken ==>
                  exists e :: 0 <= e < c && dir.path(cs[e].name) == dir.path(cs[c].name))
    ensures c == |site.unit.config| ==> IsGraph(site, Read(site, grow), g)
    ensures c == |site.unit.config| && !HasRoom(site, grow) ==> IsGraph(site, INTENDED, g)
    ensures c < |site.unit.config| ==>
              && (forall m :: m in g ==>
                    Registered(site, m) && g[m] == Resource(DependsOn(site, INTENDED, m), Uses(site, m)))
              && (forall m :: m in g <==>
                    Registered(site, m) && (if m.BaseVolume? then m.config < c else
                                              OfVm(m) && m.vm < |FirstVms(site.unit.config, c)|))
  {
    c, g := BuildGraph(site, dir, grow);
    ReachesIs(dir, site.unit.config, c);
    if c < |site.unit.config| {
      PartIs(site, c, g);
    }
  }

  lemma PartIs(s: Site, c: nat, g: map<Node, Resource>)
    requires IsPart(s, c, g)
    ensures forall m :: m in g ==> Registered(s, m) && g[m] == Resource(DependsOn(s, INTENDED, m), Uses(s, m))
    ensures forall m :: m in g <==>
              Registered(s, m) && (if m.BaseVolume? then m.config < c else
                                     OfVm(m) && m.vm < |FirstVms(s.unit.config, c)|)
  {
  }

  /** The slices of a unit, built and read. */
  method BuildGraph(site: Site, dir: Directory, grow: Growth) returns (c: nat, g: map<Node, Resource>)
    requires Sufficient(grow)
    ensures Reaches(dir, site.unit.config, c)
    ensures c == |site.unit.config| ==> IsGraph(site, Read(site, grow), g)
    ensures c < |site.unit.config| ==> IsPart(site, c, g)
  {
    var b := new Builder(site, grow);
    c := b.Build(dir);
    g := map m | m in b.resources :: Resource(Contents(b.memory, b.resources[m].dependsOn), b.resources[m].uses);
    if c == |site.unit.config| {
      forall m ensures m in g <==> Registered(site, m) {
        OrderComplete(site, m);
      }
    } else {
      forall m ensures m in g <==> m in ConfigOrder(site, c) {
        InConfigOrder(site, c, m);
      }
      forall m { InConfigOrder(site, c, m); }
    }
  }

  /** A right registration stays right: one made from the k8s slice in the variant w
      its slot now shows, any other because its slice is undisturbed. */
  lemma StaysRight(s: Site, w: Variant, mem: Memory<Node>, after: Memory<Node>, m: Node, r: Registration)
    requires Right(s, INTENDED, mem, m, r) && !m.VipConfig? && !w.reset && Ok(after, r.dependsOn)
    requires Contents(after, r.dependsOn) == if Joins(m) then K8sDeps(s, w) else Contents(mem, r.dependsOn)
    ensures Right(s, w, after, m, r)
  {
    if !Joins(m) {
      OnlyJoinsReadTail(s, w, m);
    }
  }

  lemma ForkReads(s: Site, grow: Growth, xs: seq<Node>)
    requires IsK8s(s) && xs == AllVmDeps(s, false) + [K8sPrime]
    ensures K8sDeps(s, Read(s, grow))
            == if 2 * (|xs| - 1) + 1 <= LoopCap(s, grow) then xs[..|xs| - 1] + [xs[0]] else xs
  {
  }

  /** Appending the forked k8s slice to vmDepends settles memory again, in the
      variant w that the k8s slice now reads as. */
  lemma {:induction false} Unfork(s: Site, w: Variant, mem: Memory<Node>, after: Memory<Node>,
                                  resources: map<Node, Registration>, vm: Slice, longer: Slice,
                                  file: Slice, pkg: Slice, k8s: Slice, lists: Lists)
    requires Forked(s, mem, resources, vm, file, pkg, k8s, lists) && !w.reset
    requires forall t :: Ok(mem, t) ==> Ok(after, t)
    requires forall t :: Ok(mem, t) && Within(t, vm) ==> Contents(after, t) == Contents(mem, t)
    requires Contents(after, k8s) == K8sDeps(s, w)
    requires Ok(after, longer) && Contents(after, longer) == lists.vm + lists.k8s && longer.len == vm.len + k8s.len
    requires longer.data == vm.data || longer.data == |mem|
    ensures Settled(s, w, after, resources, longer, file, pkg, k8s,
                    lists.(vm := lists.vm + lists.k8s, cap := Cap(after, longer), k8s := K8sDeps(s, w)))
  {
    forall m | m in resources ensures Right(s, w, after, m, resources[m]) && Within(resources[m].dependsOn, longer) {
      assert Ok(mem, resources[m].dependsOn);
      StaysRight(s, w, mem, after, m, resources[m]);
    }
  }

  lemma {:induction false} AppendUnforks(s: Site, grow: Growth, mem: Memory<Node>, resources: map<Node, Registration>,
                      vm: Slice, file: Slice, pkg: Slice, k8s: Slice, lists: Lists)
    requires Sufficient(grow) && Forked(s, mem, resources, vm, file, pkg, k8s, lists)
    requires IsK8s(s) && lists.vm == AllVmDeps(s, false) && lists.k8s == lists.vm + [K8sPrime]
    requires lists.cap == LoopCap(s, grow)
    ensures var r := Append(mem, vm, Contents(mem, k8s), grow, SshConfig);
            var w := Read(s, grow);
            Settled(s, w, r.0, resources, r.1, file, pkg, k8s,
                    lists.(vm := lists.vm + lists.k8s, cap := Cap(r.0, r.1), k8s := K8sDeps(s, w)))
  {
    var r := Append(mem, vm, lists.k8s, grow, SshConfig);
    AppendFork(mem, vm, k8s, grow, SshConfig);
    ForkReads(s, grow, lists.k8s);
    Unfork(s, Read(s, grow), mem, r.0, resources, vm, r.1, file, pkg, k8s, lists);
  }

  lemma NoClusterYet(s: Site)
    ensures forall m :: m in BaseOrder(s) ==> !Joins(m) && !m.VipConfig?
  {
    forall m ensures m in BaseOrder(s) ==> !Joins(m) && !m.VipConfig? {
      InBaseOrder(s, m);
    }
  }

  /** Only the lists made from the k8s slice depend on what its last slot holds. */
  lemma OnlyJoinsReadTail(s: Site, w: Variant, m: Node)
    requires Registered(s, m) && !Joins(m) && !m.VipConfig? && !w.reset
    ensures DependsOn(s, w, m) == DependsOn(s, INTENDED, m)
  {
  }

  /** The exact condition on memory: the graph read at the end is the intended one
      unless the unit is of kind k8s, has a machine, and vmDepends had room for
      the whole k8s slice; then the last slot of that slice holds another resource. */
  lemma SlicesKeptExactly(s: Site, grow: Growth, g: map<Node, Resource>)
    requires IsGraph(s, Read(s, grow), g)
    ensures IsGraph(s, INTENDED, g) <==> !HasRoom(s, grow)
    ensures HasRoom(s, grow) ==> Read(s, grow).tail == RemoteOk(0) && |Machines(s)| > 0
  {
    var base, n := AllVmDeps(s, false), |Machines(s)|;
    if n > 0 {
      FirstVmDep(s.inputs, n);
    }
    if HasRoom(s, grow) {
      assert Registered(s, KubeConfig);
      assert g[KubeConfig].dependsOn[|base|] == RemoteOk(0);
      assert DependsOn(s, INTENDED, KubeConfig)[|base|] == K8sPrime;
    }
  }

  lemma {:induction false} FirstVmDep(inputs: seq<CachedFile>, n: nat)
    requires n > 0
    ensures |VmDeps(inputs, false, n)| > 0 && VmDeps(inputs, false, n)[0] == RemoteOk(0)
  {
    if n > 1 {
      FirstVmDep(inputs, n - 1);
    }
  }

  /** Under Go's policy, all lists are as intended unless the unit is a cluster whose
      numbers of inputs sent and of machines are in the table. */
  lemma GoKeptExactly(s: Site, g: map<Node, Resource>)
    requires IsGraph(s, Read(s, GoGrow), g)
    ensures IsGraph(s, INTENDED, g) <==> !(IsK8s(s) && IsRoomy(Sent(s.inputs, |s.inputs|), |Machines(s)|))
  {
    GoRoomExactly(s);
    SlicesKeptExactly(s, GoGrow, g);
  }
}
