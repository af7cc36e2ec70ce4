/** Running a graph: a resource may start once everything it waits for is done,
    started resources finish in any order, and any number run at once. */
module Executor {
  import opened Units
  import opened Graph
  import opened RemoteCmd

  /** What the command of a resource saw by the time it finished. */
  datatype Evidence = Plain | Polled(lists: seq<NodeList>) | Hacked(tries: seq<Attempt>)

  datatype Step = Start(node: Node) | Finish(node: Node, evidence: Evidence)

  /** A site and the host name given to each machine. */
  datatype Setting = Setting(site: Site, host: nat -> string)

  predicate WaitsFor(r: Resource, d: Node) {
    d in r.dependsOn || d in r.uses
  }

  function Started(steps: seq<Step>): set<Node> {
    set st | st in steps && st.Start? :: st.node
  }

  function Done(steps: seq<Step>): set<Node> {
    set st | st in steps && st.Finish? :: st.node
  }

  predicate HacksStep(s: Site, i: nat) {
    i < |s.unit.helmfiles| && IsHacked(s.unit.helmfiles[i])
  }

  /** When a started resource may finish. A control-plane install ends with its
      polling loop, having seen its own node Ready. A hack ends with an update of
      the service, which exists only once the apply of the same step has started;
      and that apply is taken to end only after the hack. Nothing that connects to
      the prime finishes without one. */
  ghost predicate MayFinish(x: Setting, steps: seq<Step>, m: Node, e: Evidence) {
    match m
    case K8sPrime => e.Polled? && Prime(x.site).Some? && IsPolled(x.host(Prime(x.site).value), e.lists)
    case Admin(v) => e.Polled? && IsPolled(x.host(v), e.lists)
    case VipHack(i) => e.Hacked? && Prime(x.site).Some? && IsHackDone(e.tries) && Apply(i) in Started(steps)
    case Apply(i) => e.Plain? && (HacksStep(x.site, i) ==> VipHack(i) in Done(steps))
    case _ => e.Plain? && (Connects(m) ==> Prime(x.site).Some?)
  }

  ghost predicate Enabled(x: Setting, g: map<Node, Resource>, steps: seq<Step>, st: Step) {
    match st
    case Start(m) => m in g && m !in Started(steps) && forall d :: WaitsFor(g[m], d) ==> d in Done(steps)
    case Finish(m, e) => m in Started(steps) && m !in Done(steps) && MayFinish(x, steps, m, e)
  }

  ghost predicate IsRun(x: Setting, g: map<Node, Resource>, steps: seq<Step>) {
    |steps| == 0 ||
    var before, last := steps[..|steps| - 1], steps[|steps| - 1];
    IsRun(x, g, before) && Enabled(x, g, before, last)
  }

  /** Whenever b starts, a is already done. */
  ghost predicate Precedes(steps: seq<Step>, a: Node, b: Node) {
    forall j :: 0 <= j < |steps| && steps[j] == Start(b) ==> a in Done(steps[..j])
  }

  // ---- Facts of every run of every graph ----

  lemma {:induction false} RunPrefix(x: Setting, g: map<Node, Resource>, steps: seq<Step>, j: nat)
    requires IsRun(x, g, steps) && j <= |steps|
    ensures IsRun(x, g, steps[..j])
    ensures j < |steps| ==> Enabled(x, g, steps[..j], steps[j])
  {
    if j == |steps| {
      assert steps[..j] == steps;
    } else if j < |steps| - 1 {
      RunPrefix(x, g, steps[..|steps| - 1], j);
      assert steps[..|steps| - 1][..j] == steps[..j];
    }
  }

  lemma StepEffect(steps: seq<Step>, st: Step)
    ensures Started(steps + [st]) == Started(steps) + if st.Start? then {st.node} else {}
    ensures Done(steps + [st]) == Done(steps) + if st.Finish? then {st.node} else {}
  {
  }

  /** What is done was started, and only registered resources start. */
  lemma {:induction false} DoneWasStarted(x: Setting, g: map<Node, Resource>, steps: seq<Step>)
    requires IsRun(x, g, steps)
    ensures Done(steps) <= Started(steps) <= g.Keys
  {
    if |steps| > 0 {
      var before, last := steps[..|steps| - 1], steps[|steps| - 1];
      DoneWasStarted(x, g, before);
      assert steps == before + [last];
      StepEffect(before, last);
    }
  }

  lemma EdgePrecedes(x: Setting, g: map<Node, Resource>, steps: seq<Step>, a: Node, b: Node)
    requires IsRun(x, g, steps) && (b in g ==> WaitsFor(g[b], a))
    ensures Precedes(steps, a, b)
  {
    forall j | 0 <= j < |steps| && steps[j] == Start(b) ensures a in Done(steps[..j]) {
      RunPrefix(x, g, steps, j);
    }
  }

  lemma PrecedesTransitive(x: Setting, g: map<Node, Resource>, steps: seq<Step>, a: Node, b: Node, c: Node)
    requires IsRun(x, g, steps) && Precedes(steps, a, b) && Precedes(steps, b, c)
    ensures Precedes(steps, a, c)
  {
    forall j | 0 <= j < |steps| && steps[j] == Start(c) ensures a in Done(steps[..j]) {
      RunPrefix(x, g, steps, j);
      DoneWasStarted(x, g, steps[..j]);
      assert Start(b) in steps[..j];
      var i :| 0 <= i < j && steps[..j][i] == Start(b);
      assert steps[i] == Start(b) && a in Done(steps[..i]);
      assert steps[..i] <= steps[..j];
    }
  }

  /** path[0] waits for path[1], which waits for path[2], and so on. */
  ghost predicate IsPath(g: map<Node, Resource>, path: seq<Node>) {
    |path| >= 2 && forall i :: 0 <= i < |path| - 1 ==> path[i] in g && WaitsFor(g[path[i]], path[i + 1])
  }

  /** Every ancestor, however distant, is done before a resource starts. */
  lemma {:induction false} AncestorPrecedes(x: Setting, g: map<Node, Resource>, steps: seq<Step>, path: seq<Node>)
    requires IsRun(x, g, steps) && IsPath(g, path)
    ensures Precedes(steps, path[|path| - 1], path[0])
  {
    EdgePrecedes(x, g, steps, path[1], path[0]);
    if |path| > 2 {
      AncestorPrecedes(x, g, steps, path[1..]);
      PrecedesTransitive(x, g, steps, path[|path| - 1], path[1], path[0]);
    }
  }

  /** Every step uses up one of two chances of a resource, so runs are short. */
  lemma {:induction false} RunLength(x: Setting, g: map<Node, Resource>, steps: seq<Step>)
    requires IsRun(x, g, steps)
    ensures |steps| == |Started(steps)| + |Done(steps)| <= 2 * |g.Keys|
  {
    RunCount(x, g, steps);
    DoneWasStarted(x, g, steps);
    SubsetSize(Started(steps), g.Keys);
    SubsetSize(Done(steps), g.Keys);
  }

  lemma {:induction false} RunCount(x: Setting, g: map<Node, Resource>, steps: seq<Step>)
    requires IsRun(x, g, steps)
    ensures |steps| == |Started(steps)| + |Done(steps)|
  {
    if |steps| == 0 {
      assert Started(steps) == {} && Done(steps) == {};
    } else {
      var before, last := steps[..|steps| - 1], steps[|steps| - 1];
      RunCount(x, g, before);
      assert steps == before + [last];
      StepEffect(before, last);
    }
  }

  lemma {:induction false} SubsetSize<T>(a: set<T>, b: set<T>)
    requires a <= b
    ensures |a| <= |b|
  {
    if a != {} {
      var t :| t in a;
      SubsetSize(a - {t}, b - {t});
    }
  }

  /** Runs depend on the edges as a relation: order and repetition in the lists do not matter. */
  ghost predicate SameEdges(g: map<Node, Resource>, h: map<Node, Resource>) {
    g.Keys == h.Keys && forall m, d :: m in g ==> (WaitsFor(g[m], d) <==> WaitsFor(h[m], d))
  }

  lemma {:induction false} SameEdgesSameRuns(x: Setting, g: map<Node, Resource>, h: map<Node, Resource>,
                                             steps: seq<Step>)
    requires SameEdges(g, h)
    ensures IsRun(x, g, steps) <==> IsRun(x, h, steps)
  {
    if |steps| > 0 {
      SameEdgesSameRuns(x, g, h, steps[..|steps| - 1]);
      var m := steps[|steps| - 1].node;
      if m in g {
        assert m in h && forall d :: WaitsFor(g[m], d) <==> WaitsFor(h[m], d);
      }
    }
  }

  // ---- The order that the graph of a unit imposes on its runs ----

  /** The lists a graph may carry at the end of a k8s slice. */
  predicate PlainTail(s: Site, tail: Node) {
    tail == K8sPrime || (tail == RemoteOk(0) && |Machines(s)| > 0)
  }

  function Rank(m: Node): nat {
    match m
    case BaseVolume(_) => 0
    case Disk(_) => 1
    case CloudInit(_) => 0
    case Domain(_) => 2
    case SshKey(_) => 3
    case CopyRemote(_) => 4
    case RemoteOk(_) => 5
    case Motd(_) => 4
    case ZypperIn(_) => 6
    case EnableIscsi(_) => 7
    case CiLog(_, _) => 6
    case CopyInput(_, _) => 3
    case InstallInput(_, _) => 4
    case SshConfig => 6
    case K8sPrime => 6
    case KubeConfig => 7
    case Admin(_) => 7
    case Worker(_) => 7
    case VipConfig(_) => 7
    case VipHack(i) => 8 + i
    case Apply(i) => 8 + i
  }

  lemma PrimeIsMachine(s: Site)
    ensures Prime(s).Some? ==> Prime(s).value < |Machines(s)|
  {
    PrimeIsLastFirstDefault(s.unit.config);
    if Prime(s).Some? {
      assert PrimeOf(s.unit.config) == Some(Prime(s).value);
    }
  }

  /** Waiting goes down in rank and stays inside the graph: no cycle, nothing missing. */
  lemma Ranked(s: Site, w: Variant, g: map<Node, Resource>, m: Node, d: Node)
    requires IsGraph(s, w, g) && PlainTail(s, w.tail) && m in g && WaitsFor(g[m], d)
    ensures d in g && Rank(d) < Rank(m)
  {
    PrimeIsMachine(s);
    GroupHoldsExactly(s.unit.config, "default");
    GroupHoldsExactly(s.unit.config, "agent");
    if d in DependsOn(s, w, m) {
      RankedDependsOn(s, w, m, d);
    }
    assert Registered(s, d) && Rank(d) < Rank(m);
  }

  lemma RankedVmDeps(s: Site, reset: bool, v: nat, d: Node)
    requires v <= |Machines(s)| && d in VmDeps(s.inputs, reset, v)
    ensures Registered(s, d) && Rank(d) <= 5
  {
    InVmDeps(s.inputs, reset, v, d);
  }

  lemma RankedHelmDeps(s: Site, w: Variant, i: nat, d: Node)
    requires Helms(s) && i <= |s.unit.helmfiles| && d in HelmDeps(s, w, i)
    ensures Registered(s, d) && Rank(d) < 8 + i
  {
    HelmDepsHold(s, w, i);
    assert BeforeStep(s, i, d);
  }

  lemma RankedDependsOn(s: Site, w: Variant, m: Node, d: Node)
    requires Registered(s, m) && PlainTail(s, w.tail) && d in DependsOn(s, w, m)
    ensures Registered(s, d) && Rank(d) < Rank(m)
  {
    if m.VipHack? || m.Apply? {
      RankedHelmDeps(s, w, m.step, d);
    } else if (m.ZypperIn? || m.CiLog?) && d != RemoteOk(m.vm) {
      RankedVmDeps(s, w.reset, m.vm, d);
    } else if d in AllVmDeps(s, w.reset) {
      RankedVmDeps(s, w.reset, |Machines(s)|, d);
    }
  }

  /** The whole-unit barrier: every machine has answered, has its motd and has every
      input before the prime install starts, and likewise before any apply. */
  lemma {:induction false} SetupPrecedes(x: Setting, w: Variant, g: map<Node, Resource>, steps: seq<Step>,
                                         m: Node, b: Node)
    requires IsGraph(x.site, w, g) && IsRun(x, g, steps)
    requires SetsUp(x.site.inputs, m) && m.vm < |Machines(x.site)|
    requires || b == K8sPrime || b == SshConfig || b == KubeConfig || b.Admin? || b.Worker?
             || b.VipHack? || b.Apply? || b.VipConfig?
    ensures Precedes(steps, m, b)
  {
    if b in g {
      VmDepsHold(x.site.inputs, w.reset, |Machines(x.site)|);
      if b.VipHack? || b.Apply? {
        HelmDepsHold(x.site, w, b.step);
      }
      assert m in DependsOn(x.site, w, b);
    }
    EdgePrecedes(x, g, steps, m, b);
  }

  /** The first position at which m finishes. */
  lemma FinishedAt(x: Setting, g: map<Node, Resource>, steps: seq<Step>, m: Node) returns (i: nat)
    requires IsRun(x, g, steps) && m in Done(steps)
    ensures i < |steps| && steps[i].Finish? && steps[i].node == m && MayFinish(x, steps[..i], m, steps[i].evidence)
  {
    var st :| st in steps && st.Finish? && st.node == m;
    i :| 0 <= i < |steps| && steps[i] == st;
    RunPrefix(x, g, steps, i);
  }

  /** Prime before join, end to end: before any command with --upstream starts, the
      prime's polling loop has ended on an answer that shows the prime Ready. */
  lemma {:induction false} JoinAfterReady(x: Setting, g: map<Node, Resource>, steps: seq<Step>, j: nat) returns (i: nat)
    requires IsGraph(x.site, INTENDED, g) && IsRun(x, g, steps)
    requires j < |steps| && steps[j].Start? && (steps[j].node.Admin? || steps[j].node.Worker?)
    ensures i < j && steps[i].Finish? && steps[i].node == K8sPrime && steps[i].evidence.Polled?
    ensures Prime(x.site).Some? && IsPolled(x.host(Prime(x.site).value), steps[i].evidence.lists)
    ensures var lists := steps[i].evidence.lists;
            && |lists| > 0 && lists[|lists| - 1].Listed?
            && exists n, c :: n in lists[|lists| - 1].nodes && n.name == x.host(Prime(x.site).value)
                              && c in n.conditions && c.kind == "Ready" && c.status == "True"
  {
    var m := steps[j].node;
    RunPrefix(x, g, steps, j);
    assert K8sPrime in DependsOn(x.site, INTENDED, m);
    EdgePrecedes(x, g, steps, K8sPrime, m);
    i := FinishedAt(x, g, steps[..j], K8sPrime);
    var lists := steps[i].evidence.lists;
    ShowsReadyIs(x.host(Prime(x.site).value), lists[|lists| - 1]);
  }

  /** Helmfiles apply in list order: an earlier apply, its hack and the kubeconfig
      for the vip are all done before a later apply or hack starts. */
  lemma StepsInOrder(x: Setting, w: Variant, g: map<Node, Resource>, steps: seq<Step>, i: nat, j: nat, m: Node, b: Node)
    requires IsGraph(x.site, w, g) && IsRun(x, g, steps)
    requires i < j && (b == Apply(j) || b == VipHack(j))
    requires (m == Apply(i) || m == VipHack(i) || m == VipConfig(i)) && m in g
    ensures Precedes(steps, m, b)
  {
    if b in g {
      HelmDepsHold(x.site, w, j);
      assert BeforeStep(x.site, j, m);
      assert m in DependsOn(x.site, w, b);
    }
    EdgePrecedes(x, g, steps, m, b);
  }

  /** Every apply follows the whole cluster, whatever the last slot of the k8s slice holds. */
  lemma ClusterPrecedesApply(x: Setting, w: Variant, g: map<Node, Resource>, steps: seq<Step>, m: Node, i: nat)
    requires IsGraph(x.site, w, g) && IsRun(x, g, steps)
    requires m in g && (m.K8sPrime? || m.Admin? || m.Worker?)
    ensures Precedes(steps, m, Apply(i))
  {
    if Apply(i) in g {
      HelmDepsHold(x.site, w, i);
      assert BeforeStep(x.site, i, m);
    }
    EdgePrecedes(x, g, steps, m, Apply(i));
  }

  /** Online packages: every apply follows the packages of every machine and iscsid on it. */
  lemma PackagesPrecedeApply(x: Setting, w: Variant, g: map<Node, Resource>, steps: seq<Step>, v: nat, i: nat)
    requires IsGraph(x.site, w, g) && IsRun(x, g, steps) && x.site.unit.online && v < |Machines(x.site)|
    ensures Precedes(steps, EnableIscsi(v), Apply(i)) && Precedes(steps, ZypperIn(v), Apply(i))
  {
    if Apply(i) in g {
      HelmDepsHold(x.site, w, i);
      assert BeforeStep(x.site, i, EnableIscsi(v)) && BeforeStep(x.site, i, ZypperIn(v));
    }
    EdgePrecedes(x, g, steps, EnableIscsi(v), Apply(i));
    EdgePrecedes(x, g, steps, ZypperIn(v), Apply(i));
  }

  /** The packages of machine v follow its remote check and the whole setup of the
      machines before it. */
  lemma SetupPrecedesPackages(x: Setting, w: Variant, g: map<Node, Resource>, steps: seq<Step>, v: nat, m: Node)
    requires IsGraph(x.site, w, g) && IsRun(x, g, steps)
    requires (SetsUp(x.site.inputs, m) && m.vm < v) || m == RemoteOk(v)
    ensures Precedes(steps, m, ZypperIn(v)) && Precedes(steps, m, EnableIscsi(v))
  {
    InVmDeps(x.site.inputs, w.reset, v, m);
    EdgePrecedes(x, g, steps, m, ZypperIn(v));
    EdgePrecedes(x, g, steps, ZypperIn(v), EnableIscsi(v));
    PrecedesTransitive(x, g, steps, m, ZypperIn(v), EnableIscsi(v));
  }

  // ---- No run gets stuck ----

  /** Some resource of least rank among those not yet done. */
  lemma {:induction false} LeastRank(todo: set<Node>) returns (m: Node)
    requires todo != {}
    ensures m in todo && forall n :: n in todo ==> Rank(m) <= Rank(n)
  {
    m :| m in todo;
    if todo != {m} {
      var n := LeastRank(todo - {m});
      if Rank(n) < Rank(m) {
        m := n;
      }
    }
  }

  /** Answers that end the polling loop of a host at once. */
  function AnswerFor(m: Node, s: Site, host: nat -> string): Evidence {
    match m
    case K8sPrime => if Prime(s).Some? then ReadyAtOnce(host(Prime(s).value)) else Plain
    case Admin(v) => ReadyAtOnce(host(v))
    case VipHack(_) => Hacked([Updated])
    case _ => Plain
  }

  function ReadyAtOnce(host: string): Evidence {
    Polled([Listed([NodeStatus(host, [Condition("Ready", "True")])])])
  }

  lemma ReadyAtOnceIsPolled(host: string)
    ensures IsPolled(host, ReadyAtOnce(host).lists)
  {
    var c, n := Condition("Ready", "True"), NodeStatus(host, [Condition("Ready", "True")]);
    assert c in n.conditions && IsReady(c);
    assert n in ReadyAtOnce(host).lists[0].nodes && HasReady(n.conditions);
  }

  /** A part of the graph that can be completed by itself: it holds all it waits
      for, and of a hack and the apply of its step both or neither. */
  ghost predicate Closed(g: map<Node, Resource>, part: set<Node>) {
    && part <= g.Keys
    && (forall m, d :: m in part && WaitsFor(g[m], d) ==> d in part)
    && (forall i :: VipHack(i) in part ==> Apply(i) in part)
    && (forall i :: Apply(i) in part && VipHack(i) in g ==> VipHack(i) in part)
  }

  lemma LeastMayStart(x: Setting, w: Variant, g: map<Node, Resource>, part: set<Node>, steps: seq<Step>, m: Node)
    requires IsGraph(x.site, w, g) && PlainTail(x.site, w.tail) && Closed(g, part)
    requires m in part && m !in Started(steps)
    requires forall n :: n in part && n !in Done(steps) ==> Rank(m) <= Rank(n)
    ensures Enabled(x, g, steps, Start(m))
  {
    forall d | WaitsFor(g[m], d) ensures d in Done(steps) {
      Ranked(x.site, w, g, m, d);
      assert d in part;
    }
  }

  /** The resource to act on: one of least rank, or the partner a hack or apply is stuck on. */
  lemma NextNode(s: Site, g: map<Node, Resource>, part: set<Node>, started: set<Node>, done: set<Node>)
    returns (m: Node)
    requires Closed(g, part) && !(part <= done) && done <= started
    requires forall i :: Apply(i) in g && HacksStep(s, i) ==> VipHack(i) in g
    ensures m in part && m !in done
    ensures m !in started ==> forall n :: n in part && n !in done ==> Rank(m) <= Rank(n)
    ensures m in started && m.VipHack? ==> Apply(m.step) in started
    ensures m in started && m.Apply? && HacksStep(s, m.step) ==> VipHack(m.step) in done
  {
    var left :| left in part && left !in done;
    assert left in part - done;
    m := LeastRank(part - done);
    if m in started && m.VipHack? && Apply(m.step) !in started {
      m := Apply(m.step);
    } else if m in started && m.Apply? && HacksStep(s, m.step) && VipHack(m.step) !in done {
      m := VipHack(m.step);
    }
  }

  lemma HackBesideApply(s: Site, w: Variant, g: map<Node, Resource>, i: nat)
    requires IsGraph(s, w, g) && Apply(i) in g && HacksStep(s, i)
    ensures VipHack(i) in g
  {
    assert Registered(s, Apply(i));
  }

  /** What connects to the prime in this part has one to connect to. */
  predicate PartSupplied(s: Site, part: set<Node>) {
    forall m :: m in part && Connects(m) ==> Prime(s).Some?
  }

  /** The step that is enabled while something of the part is not done. */
  lemma NextStep(x: Setting, w: Variant, g: map<Node, Resource>, part: set<Node>, steps: seq<Step>) returns (st: Step)
    requires IsGraph(x.site, w, g) && PlainTail(x.site, w.tail) && PartSupplied(x.site, part)
    requires IsRun(x, g, steps) && Closed(g, part) && !(part <= Done(steps))
    ensures Enabled(x, g, steps, st) && st.node in part
  {
    DoneWasStarted(x, g, steps);
    forall i | Apply(i) in g && HacksStep(x.site, i) ensures VipHack(i) in g {
      HackBesideApply(x.site, w, g, i);
    }
    var m := NextNode(x.site, g, part, Started(steps), Done(steps));
    if m !in Started(steps) {
      st := Start(m);
      LeastMayStart(x, w, g, part, steps, m);
    } else {
      st := Finish(m, AnswerFor(m, x.site, x.host));
      AnswerSuffices(x, steps, m);
    }
  }

  lemma AnswerSuffices(x: Setting, steps: seq<Step>, m: Node)
    requires Connects(m) ==> Prime(x.site).Some?
    requires m.VipHack? ==> Apply(m.step) in Started(steps)
    requires m.Apply? && HacksStep(x.site, m.step) ==> VipHack(m.step) in Done(steps)
    ensures MayFinish(x, steps, m, AnswerFor(m, x.site, x.host))
  {
    if m.K8sPrime? {
      ReadyAtOnceIsPolled(x.host(Prime(x.site).value));
    }
    if m.Admin? {
      ReadyAtOnceIsPolled(x.host(m.vm));
    }
  }

  /** Deadlock freedom: a run with no enabled step has completed every resource,
      although each hack and the apply of its step wait for one another to act. */
  lemma StuckIsComplete(x: Setting, w: Variant, g: map<Node, Resource>, steps: seq<Step>)
    requires IsGraph(x.site, w, g) && PlainTail(x.site, w.tail) && PrimeSupplied(x.site)
    requires IsRun(x, g, steps) && forall st :: !Enabled(x, g, steps, st)
    ensures Done(steps) == g.Keys
  {
    DoneWasStarted(x, g, steps);
    if !(g.Keys <= Done(steps)) {
      AllClosed(x.site, w, g);
      AllSupplied(x.site, w, g);
      var st := NextStep(x, w, g, g.Keys, steps);
      assert false;
    }
  }

  lemma ApplyBesideHack(s: Site, w: Variant, g: map<Node, Resource>, i: nat)
    requires IsGraph(s, w, g) && VipHack(i) in g
    ensures Apply(i) in g
  {
  }

  lemma AllClosed(s: Site, w: Variant, g: map<Node, Resource>)
    requires IsGraph(s, w, g) && PlainTail(s, w.tail)
    ensures Closed(g, g.Keys)
  {
    forall m, d | m in g.Keys && WaitsFor(g[m], d) ensures d in g.Keys {
      Ranked(s, w, g, m, d);
    }
    forall i | VipHack(i) in g.Keys ensures Apply(i) in g.Keys {
      ApplyBesideHack(s, w, g, i);
    }
  }

  /** Every run, wherever it stands, can be continued until a closed part is done,
      starting nothing outside it. */
  lemma {:induction false} Completion(x: Setting, w: Variant, g: map<Node, Resource>, part: set<Node>, steps: seq<Step>)
    returns (all: seq<Step>)
    requires IsGraph(x.site, w, g) && PlainTail(x.site, w.tail) && PartSupplied(x.site, part)
    requires IsRun(x, g, steps) && Closed(g, part)
    ensures steps <= all && IsRun(x, g, all) && part <= Done(all) && Started(all) <= Started(steps) + part
    decreases 2 * |g.Keys| - |steps|
  {
    all := steps;
    if !(part <= Done(steps)) {
      var st := NextStep(x, w, g, part, steps);
      assert (steps + [st])[..|steps|] == steps;
      RunLength(x, g, steps + [st]);
      StepEffect(steps, st);
      all := Completion(x, w, g, part, steps + [st]);
    }
  }

  lemma AllSupplied(s: Site, w: Variant, g: map<Node, Resource>)
    requires IsGraph(s, w, g)
    ensures PartSupplied(s, g.Keys) <==> PrimeSupplied(s)
  {
    if PartSupplied(s, g.Keys) && NeedsPrime(s) {
      if IsK8s(s) {
        assert K8sPrime in g;
      } else {
        var i :| 0 <= i < |s.unit.helmfiles| && ConnectsIn(s.unit.helmfiles[i]);
        assert VipHack(i) in g || VipConfig(i) in g;
      }
    }
  }

  lemma {:induction false} NothingConnects(x: Setting, g: map<Node, Resource>, steps: seq<Step>, m: Node)
    requires IsRun(x, g, steps) && Connects(m) && Prime(x.site).None?
    ensures m !in Done(steps)
  {
    if |steps| > 0 {
      var before, last := steps[..|steps| - 1], steps[|steps| - 1];
      NothingConnects(x, g, before, m);
      assert steps == before + [last];
      StepEffect(before, last);
    }
  }

  /** Some continuation of the run completes everything. */
  ghost predicate CanComplete(x: Setting, g: map<Node, Resource>, steps: seq<Step>) {
    exists all :: steps <= all && IsRun(x, g, all) && Done(all) == g.Keys
  }

  /** Every run can be continued to completion if and only if the commands that
      connect to the prime have one. */
  lemma CompletesExactly(x: Setting, w: Variant, g: map<Node, Resource>)
    requires IsGraph(x.site, w, g) && PlainTail(x.site, w.tail)
    ensures (forall steps :: IsRun(x, g, steps) ==> CanComplete(x, g, steps)) <==> PrimeSupplied(x.site)
  {
    AllSupplied(x.site, w, g);
    AllClosed(x.site, w, g);
    if PrimeSupplied(x.site) {
      forall steps | IsRun(x, g, steps) ensures CanComplete(x, g, steps) {
        var all := Completion(x, w, g, g.Keys, steps);
        DoneWasStarted(x, g, all);
      }
    } else {
      var m :| m in g && Connects(m);
      forall all | IsRun(x, g, all) ensures Done(all) != g.Keys {
        NothingConnects(x, g, all, m);
      }
      assert IsRun(x, g, []) && !CanComplete(x, g, []);
    }
  }

  /** The resources of the machines up to their setup are complete by themselves. */
  lemma SetupClosed(s: Site, w: Variant, g: map<Node, Resource>) returns (part: set<Node>)
    requires IsGraph(s, w, g) && PlainTail(s, w.tail)
    ensures Closed(g, part) && PartSupplied(s, part) && forall m :: m in part <==> m in g && Rank(m) <= 5
  {
    part := set m | m in g && Rank(m) <= 5;
    forall m, d | m in part && WaitsFor(g[m], d) ensures d in part {
      Ranked(s, w, g, m, d);
    }
    forall i: nat ensures VipHack(i) !in part && Apply(i) !in part {
      assert Rank(VipHack(i)) > 5 && Rank(Apply(i)) > 5;
    }
  }

  lemma ForkedJoinWaits(s: Site, w: Variant, g: map<Node, Resource>, m: Node, d: Node)
    requires w.tail == RemoteOk(0) && PlainTail(s, w.tail) && IsGraph(s, w, g)
    requires (m.Admin? || m.Worker?) && m in g && WaitsFor(g[m], d)
    ensures d in g && Rank(d) <= 5
  {
    Ranked(s, w, g, m, d);
    if d in DependsOn(s, w, m) {
      InVmDeps(s.inputs, w.reset, |Machines(s)|, d);
    }
  }

  /** When the k8s slice was written over, a node can join before the prime was even
      started: some run does so. */
  lemma ForkedJoinIsUnordered(x: Setting, w: Variant, g: map<Node, Resource>, m: Node) returns (steps: seq<Step>)
    requires w.tail == RemoteOk(0) && PlainTail(x.site, w.tail) && IsGraph(x.site, w, g)
    requires (m.Admin? || m.Worker?) && m in g
    ensures IsRun(x, g, steps) && Start(m) in steps && K8sPrime !in Started(steps)
  {
    var part := SetupClosed(x.site, w, g);
    var setup := Completion(x, w, g, part, []);
    assert Started([]) == {};
    forall d | WaitsFor(g[m], d) ensures d in Done(setup) {
      ForkedJoinWaits(x.site, w, g, m, d);
    }
    assert m !in part && K8sPrime !in part;
    steps := setup + [Start(m)];
    assert steps[..|setup|] == setup;
    assert steps[|setup|] == Start(m);
    StepEffect(setup, Start(m));
  }

  lemma NobodyReadsKubeConfig(s: Site, w: Variant, m: Node)
    requires Registered(s, m) && PlainTail(s, w.tail)
    ensures KubeConfig !in DependsOn(s, w, m) && KubeConfig !in Uses(s, m)
  {
    if m.VipHack? || m.Apply? {
      HelmDepsHold(s, w, m.step);
      assert !BeforeStep(s, m.step, KubeConfig);
    } else if KubeConfig in DependsOn(s, w, m) {
      RankedDependsOn(s, w, m, KubeConfig);
    }
  }

  lemma ClosedWithoutKubeConfig(s: Site, w: Variant, g: map<Node, Resource>)
    requires IsGraph(s, w, g) && PlainTail(s, w.tail)
    ensures Closed(g, g.Keys - {KubeConfig})
  {
    AllClosed(s, w, g);
    forall m, d | m in g.Keys - {KubeConfig} && WaitsFor(g[m], d) ensures d in g.Keys - {KubeConfig} {
      NobodyReadsKubeConfig(s, w, m);
    }
  }

  /** Nothing waits for the copied kubeconfig: some run completes everything else,
      every helmfile apply included, without ever starting to copy it. */
  lemma KubeConfigUnordered(x: Setting, w: Variant, g: map<Node, Resource>) returns (steps: seq<Step>)
    requires IsGraph(x.site, w, g) && PlainTail(x.site, w.tail) && PrimeSupplied(x.site)
    ensures IsRun(x, g, steps) && Done(steps) == g.Keys - {KubeConfig} && KubeConfig !in Started(steps)
  {
    ClosedWithoutKubeConfig(x.site, w, g);
    AllSupplied(x.site, w, g);
    steps := Completion(x, w, g, g.Keys - {KubeConfig}, []);
    assert Started([]) == {};
    DoneWasStarted(x, g, steps);
  }

  /** Something that helmfile step i waits for connects to a prime that is not there. */
  predicate IsBlocked(s: Site, i: nat) {
    && Prime(s).None?
    && (IsK8s(s) || exists j :: 0 <= j < i && j < |s.unit.helmfiles| && ConnectsIn(s.unit.helmfiles[j]))
  }

  /** Without a prime but not blocked: what step i waits for is complete by itself,
      and none of it connects. */
  lemma UnblockedClosed(s: Site, w: Variant, g: map<Node, Resource>, i: nat) returns (part: set<Node>)
    requires IsGraph(s, w, g) && PlainTail(s, w.tail) && Prime(s).None? && !IsBlocked(s, i)
    ensures Closed(g, part) && PartSupplied(s, part)
    ensures forall m :: m in part <==> m in g && Rank(m) < 8 + i && !Connects(m)
  {
    part := set m | m in g && Rank(m) < 8 + i && !Connects(m);
    forall m, d | m in part && WaitsFor(g[m], d) ensures d in part {
      Ranked(s, w, g, m, d);
      UnblockedWaits(s, w, g, i, m, d);
    }
    forall j: nat | Apply(j) in part ensures VipHack(j) !in g {
      assert Rank(Apply(j)) == 8 + j;
    }
  }

  lemma UnblockedWaits(s: Site, w: Variant, g: map<Node, Resource>, i: nat, m: Node, d: Node)
    requires IsGraph(s, w, g) && PlainTail(s, w.tail) && Prime(s).None? && !IsBlocked(s, i)
    requires m in g && Rank(m) <= 8 + i && !m.VipHack? && !m.VipConfig? && WaitsFor(g[m], d)
    ensures !Connects(d)
  {
    Ranked(s, w, g, m, d);
    if m.Apply? {
      HelmDepsHold(s, w, m.step);
      assert BeforeStep(s, m.step, d);
    }
  }

  lemma UnblockedApplyStarts(x: Setting, w: Variant, g: map<Node, Resource>, i: nat) returns (steps: seq<Step>)
    requires IsGraph(x.site, w, g) && PlainTail(x.site, w.tail) && Prime(x.site).None? && !IsBlocked(x.site, i)
    requires Apply(i) in g
    ensures IsRun(x, g, steps) && Start(Apply(i)) in steps && KubeConfig !in Started(steps)
  {
    var part := UnblockedClosed(x.site, w, g, i);
    var before := Completion(x, w, g, part, []);
    assert Started([]) == {};
    forall d | WaitsFor(g[Apply(i)], d) ensures d in Done(before) {
      Ranked(x.site, w, g, Apply(i), d);
      UnblockedWaits(x.site, w, g, i, Apply(i), d);
    }
    assert Rank(Apply(i)) == 8 + i && Apply(i) !in part && KubeConfig !in part;
    steps := before + [Start(Apply(i))];
    assert steps[..|before|] == before;
    assert steps[|before|] == Start(Apply(i));
    StepEffect(before, Start(Apply(i)));
  }

  /** A blocked apply starts in no run. */
  lemma BlockedNeverStarts(x: Setting, w: Variant, g: map<Node, Resource>, i: nat, steps: seq<Step>)
    requires IsGraph(x.site, w, g) && IsRun(x, g, steps) && IsBlocked(x.site, i)
    ensures Start(Apply(i)) !in steps
  {
    if Apply(i) in g {
      HelmDepsHold(x.site, w, i);
      var d := BlockingNode(x.site, i);
      assert BeforeStep(x.site, i, d);
      EdgePrecedes(x, g, steps, d, Apply(i));
      NothingConnects(x, g, steps, d);
      assert forall j :: 0 <= j < |steps| ==> Done(steps[..j]) <= Done(steps);
    } else {
      DoneWasStarted(x, g, steps);
    }
  }

  /** What blocks it: the prime install, or the hack or kubeconfig of an earlier step. */
  function BlockingNode(s: Site, i: nat): Node
    requires IsBlocked(s, i)
  {
    if IsK8s(s) then K8sPrime else FirstConnecting(s.unit.helmfiles, i)
  }

  function FirstConnecting(helmfiles: seq<string>, i: nat): (m: Node)
    requires exists j :: 0 <= j < i && j < |helmfiles| && ConnectsIn(helmfiles[j])
    ensures (m.VipHack? || m.VipConfig?) && m.step < i && m.step < |helmfiles| && OfStep(helmfiles[m.step], m.step, m)
  {
    if i - 1 < |helmfiles| && ConnectsIn(helmfiles[i - 1]) then
      if IsHacked(helmfiles[i - 1]) then VipHack(i - 1) else VipConfig(i - 1)
    else FirstConnecting(helmfiles, i - 1)
  }

  /** The copy precedes an apply in every run only if that apply starts in none: it
      does not exist, or waits for a prime that does not. */
  lemma KubeConfigBeforeExactly(x: Setting, w: Variant, g: map<Node, Resource>, i: nat)
    requires IsGraph(x.site, w, g) && PlainTail(x.site, w.tail)
    ensures (forall steps :: IsRun(x, g, steps) ==> Precedes(steps, KubeConfig, Apply(i))) <==>
              Apply(i) !in g || IsBlocked(x.site, i)
  {
    if Apply(i) !in g {
      forall steps | IsRun(x, g, steps) ensures Precedes(steps, KubeConfig, Apply(i)) {
        EdgePrecedes(x, g, steps, KubeConfig, Apply(i));
      }
    } else if IsBlocked(x.site, i) {
      forall steps | IsRun(x, g, steps) ensures Precedes(steps, KubeConfig, Apply(i)) {
        BlockedNeverStarts(x, w, g, i, steps);
      }
    } else {
      var steps := ApplyWithoutCopy(x, w, g, i);
      var j :| 0 <= j < |steps| && steps[j] == Start(Apply(i));
      DoneWasStarted(x, g, steps);
      assert KubeConfig in Done(steps[..j]) ==> KubeConfig in Done(steps);
      assert !Precedes(steps, KubeConfig, Apply(i));
    }
  }

  lemma ApplyWithoutCopy(x: Setting, w: Variant, g: map<Node, Resource>, i: nat) returns (steps: seq<Step>)
    requires IsGraph(x.site, w, g) && PlainTail(x.site, w.tail) && Apply(i) in g && !IsBlocked(x.site, i)
    ensures IsRun(x, g, steps) && Start(Apply(i)) in steps && KubeConfig !in Started(steps)
  {
    if Prime(x.site).Some? {
      steps := KubeConfigUnordered(x, w, g);
      DoneWasStarted(x, g, steps);
      assert Apply(i) in Started(steps);
    } else {
      steps := UnblockedApplyStarts(x, w, g, i);
    }
  }

  /** The edge the program avoids: were the apply of a hacked step to wait for its
      hack, no run would ever start that apply or finish that hack. */
  lemma {:induction false} HackEdgeBlocks(x: Setting, g: map<Node, Resource>, steps: seq<Step>, i: nat)
    requires IsRun(x, g, steps) && Apply(i) in g && WaitsFor(g[Apply(i)], VipHack(i))
    ensures Apply(i) !in Started(steps) && VipHack(i) !in Done(steps)
  {
    if |steps| > 0 {
      var before, last := steps[..|steps| - 1], steps[|steps| - 1];
      HackEdgeBlocks(x, g, before, i);
      assert steps == before + [last];
      StepEffect(before, last);
    }
  }

  lemma ResetKeepsEdges(s: Site, m: Node, d: Node)
    requires Registered(s, m)
    ensures d in DependsOn(s, INTENDED, m) <==> d in DependsOn(s, Variant(K8sPrime, true), m)
  {
    if m.VipHack? || m.Apply? {
      HelmDepsHold(s, INTENDED, m.step);
      HelmDepsHold(s, Variant(K8sPrime, true), m.step);
    } else {
      var v := if m.ZypperIn? || m.CiLog? then m.vm else |Machines(s)|;
      InVmDeps(s.inputs, true, v, d);
      InVmDeps(s.inputs, false, v, d);
    }
  }

  /** Starting the file list afresh at each machine gives a graph with exactly the
      same runs: the repeated edges of the accumulated list change nothing. */
  lemma ResetSameRuns(x: Setting, g: map<Node, Resource>, h: map<Node, Resource>, steps: seq<Step>)
    requires IsGraph(x.site, INTENDED, g) && IsGraph(x.site, Variant(K8sPrime, true), h)
    ensures IsRun(x, g, steps) <==> IsRun(x, h, steps)
  {
    assert g.Keys == h.Keys;
    forall m, d | m in g ensures WaitsFor(g[m], d) <==> WaitsFor(h[m], d) {
      ResetKeepsEdges(x.site, m, d);
    }
    SameEdgesSameRuns(x, g, h, steps);
  }
}
