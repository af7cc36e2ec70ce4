/** The binary copied to each machine: waiting for the node, patching a service,
    and writing the rke2 config for the machine's role. */
module RemoteCmd {
  import opened Units

  // ---- Waiting for this node to become Ready ----

  datatype Condition = Condition(kind: string, status: string)

  datatype NodeStatus = NodeStatus(name: string, conditions: seq<Condition>)

  /** The answer to one request for the list of nodes. */
  datatype NodeList = Failed | Listed(nodes: seq<NodeStatus>)

  predicate IsReady(c: Condition) {
    c.kind == "Ready" && c.status == "True"
  }

  predicate IsUnready(c: Condition) {
    c.kind == "Ready" && c.status != "True"
  }

  ghost predicate HasReady(cs: seq<Condition>) {
    exists c :: c in cs && IsReady(c)
  }

  /** The answer lists this host as Ready. */
  ghost predicate ShowsReady(host: string, l: NodeList) {
    l.Listed? && exists n :: n in l.nodes && n.name == host && HasReady(n.conditions)
  }

  /** The lists seen by a polling loop that has ended. */
  ghost predicate IsPolled(host: string, lists: seq<NodeList>) {
    && |lists| > 0 && ShowsReady(host, lists[|lists| - 1])
    && forall k :: 0 <= k < |lists| - 1 ==> !ShowsReady(host, lists[k])
  }

  /** When an answer shows the host Ready, in so many words. */
  lemma ShowsReadyIs(host: string, l: NodeList)
    ensures ShowsReady(host, l) <==>
              l.Listed? && exists n, c :: n in l.nodes && n.name == host && c in n.conditions
                                          && c.kind == "Ready" && c.status == "True"
  {
    if ShowsReady(host, l) {
      var n :| n in l.nodes && n.name == host && HasReady(n.conditions);
      var c :| c in n.conditions && IsReady(c);
    }
    if l.Listed? {
      forall n, c | n in l.nodes && n.name == host && c in n.conditions && c.kind == "Ready" && c.status == "True"
        ensures HasReady(n.conditions)
      {
        assert IsReady(c);
      }
    }
  }

  /** The not-ready observations in a list of conditions, of nodes, of answers. */
  function Unready(cs: seq<Condition>): nat {
    if |cs| == 0 then 0 else Unready(cs[..|cs| - 1]) + if IsUnready(cs[|cs| - 1]) then 1 else 0
  }

  function UnreadyNodes(host: string, ns: seq<NodeStatus>): nat {
    if |ns| == 0 then 0 else
      UnreadyNodes(host, ns[..|ns| - 1]) + if ns[|ns| - 1].name == host then Unready(ns[|ns| - 1].conditions) else 0
  }

  function Observed(host: string, ls: seq<NodeList>): nat {
    if |ls| == 0 then 0 else
      Observed(host, ls[..|ls| - 1]) + if ls[|ls| - 1].Listed? then UnreadyNodes(host, ls[|ls| - 1].nodes) else 0
  }

  /** Where a list of conditions has a not-ready observation. */
  function UnreadyAt(cs: seq<Condition>): set<nat> {
    set i: nat | i < |cs| && cs[i].kind == "Ready" && cs[i].status != "True"
  }

  lemma {:induction false} UnreadyCounts(cs: seq<Condition>)
    ensures Unready(cs) == |UnreadyAt(cs)|
    ensures forall i: nat :: i in UnreadyAt(cs) <==> i < |cs| && cs[i].kind == "Ready" && cs[i].status != "True"
  {
    if |cs| > 0 {
      var front, last := cs[..|cs| - 1], cs[|cs| - 1];
      UnreadyCounts(front);
      OneMoreCondition(front, last);
      assert cs == front + [last];
    }
  }

  lemma OneMoreCondition(cs: seq<Condition>, c: Condition)
    ensures |UnreadyAt(cs + [c])| == |UnreadyAt(cs)| + if c.kind == "Ready" && c.status != "True" then 1 else 0
  {
    assert UnreadyAt(cs + [c]) == UnreadyAt(cs) + if c.kind == "Ready" && c.status != "True" then {|cs|} else {};
  }

  /** Only nodes named as the host are observed, and only in answers that came. */
  lemma {:induction false} ObservedAdds(host: string, ls: seq<NodeList>, l: NodeList)
    ensures Observed(host, []) == 0
    ensures Observed(host, ls + [l]) == Observed(host, ls) + if l.Listed? then UnreadyNodes(host, l.nodes) else 0
  {
    assert (ls + [l])[..|ls|] == ls;
  }

  lemma {:induction false} UnreadyNodesAdds(host: string, ns: seq<NodeStatus>, n: NodeStatus)
    ensures UnreadyNodes(host, []) == 0
    ensures UnreadyNodes(host, ns + [n]) == UnreadyNodes(host, ns) + if n.name == host then Unready(n.conditions) else 0
  {
    assert (ns + [n])[..|ns|] == ns;
  }

  /** j is the position after the last failure. */
  ghost predicate SinceFailure(ls: seq<NodeList>, j: nat) {
    j <= |ls| && (j > 0 ==> ls[j - 1].Failed?) && forall k :: j <= k < |ls| ==> ls[k].Listed?
  }

  /** ls ends in exactly n failures. */
  ghost predicate EndsInFailures(ls: seq<NodeList>, n: nat) {
    && n <= |ls| && (forall k :: |ls| - n <= k < |ls| ==> ls[k].Failed?)
    && (n < |ls| ==> ls[|ls| - n - 1].Listed?)
  }

  method ScanConditions(cs: seq<Condition>, ready0: bool, cnt0: nat) returns (ready: bool, cnt: nat)
    ensures ready <==> ready0 || HasReady(cs)
    ensures cnt == cnt0 + Unready(cs)
  {
    ready, cnt := ready0, cnt0;
    for i := 0 to |cs|
      invariant ready <==> ready0 || HasReady(cs[..i])
      invariant cnt == cnt0 + Unready(cs[..i])
    {
      assert cs[..i + 1][..i] == cs[..i];
      assert cs[i] in cs[..i + 1] && forall c :: c in cs[..i + 1] <==> c in cs[..i] || c == cs[i];
      assert HasReady(cs[..i + 1]) <==> HasReady(cs[..i]) || IsReady(cs[i]);
      if cs[i].kind == "Ready" {
        if cs[i].status == "True" {
          ready := true;
        } else {
          cnt := cnt + 1;
        }
      }
    }
    assert cs[..|cs|] == cs;
  }

  method ScanNodes(host: string, ns: seq<NodeStatus>, cnt0: nat) returns (ready: bool, cnt: nat)
    ensures ready <==> ShowsReady(host, Listed(ns))
    ensures cnt == cnt0 + UnreadyNodes(host, ns)
  {
    ready, cnt := false, cnt0;
    for i := 0 to |ns|
      invariant ready <==> ShowsReady(host, Listed(ns[..i]))
      invariant cnt == cnt0 + UnreadyNodes(host, ns[..i])
    {
      assert ns[..i + 1][..i] == ns[..i];
      assert forall n :: n in ns[..i + 1] <==> n in ns[..i] || n == ns[i];
      if host == ns[i].name {
        ready, cnt := ScanConditions(ns[i].conditions, ready, cnt);
      }
    }
    assert ns[..|ns|] == ns;
  }

  /** What the counters of the loop mean after the answers ls. */
  ghost predicate Counted(host: string, ls: seq<NodeList>, cnt: nat, ncnt: nat) {
    EndsInFailures(ls, ncnt) && forall j: nat :: SinceFailure(ls, j) ==> cnt == Observed(host, ls[j..])
  }

  lemma CountedIs(host: string, ls: seq<NodeList>, cnt: nat, ncnt: nat)
    requires Counted(host, ls, cnt, ncnt)
    ensures ncnt <= |ls| && (forall k :: |ls| - ncnt <= k < |ls| ==> ls[k].Failed?)
    ensures ncnt < |ls| ==> ls[|ls| - ncnt - 1].Listed?
    ensures forall j: nat ::
              j <= |ls| && (j > 0 ==> ls[j - 1].Failed?) && (forall k :: j <= k < |ls| ==> ls[k].Listed?) ==>
                cnt == Observed(host, ls[j..])
  {
    forall j: nat | j <= |ls| && (j > 0 ==> ls[j - 1].Failed?) && (forall k :: j <= k < |ls| ==> ls[k].Listed?)
      ensures cnt == Observed(host, ls[j..])
    {
      assert SinceFailure(ls, j);
    }
  }

  lemma CountFailure(host: string, ls: seq<NodeList>, cnt: nat, ncnt: nat)
    requires Counted(host, ls, cnt, ncnt)
    ensures Counted(host, ls + [Failed], 0, ncnt + 1)
  {
    var more := ls + [Failed];
    assert more[|ls|].Failed?;
    forall j: nat | SinceFailure(more, j) ensures more[j..] == [] {}
  }

  lemma CountListed(host: string, ls: seq<NodeList>, nodes: seq<NodeStatus>, cnt: nat, ncnt: nat)
    requires Counted(host, ls, cnt, ncnt)
    ensures Counted(host, ls + [Listed(nodes)], cnt + UnreadyNodes(host, nodes), 0)
  {
    var more := ls + [Listed(nodes)];
    assert more[|ls|].Listed?;
    forall j: nat | SinceFailure(more, j) ensures cnt + UnreadyNodes(host, nodes) == Observed(host, more[j..]) {
      assert forall k :: j <= k < |ls| ==> more[k] == ls[k];
      assert SinceFailure(ls, j);
      assert more[j..][..|ls| - j] == ls[j..];
    }
  }

  /** One answer to the loop. */
  method PollOnce(host: string, answer: NodeList, cnt0: nat, ncnt0: nat, ghost ls: seq<NodeList>)
    returns (ready: bool, cnt: nat, ncnt: nat)
    requires Counted(host, ls, cnt0, ncnt0)
    ensures ready <==> ShowsReady(host, answer)
    ensures Counted(host, ls + [answer], cnt, ncnt)
  {
    match answer {
      case Failed =>
        CountFailure(host, ls, cnt0, ncnt0);
        ready, cnt, ncnt := false, 0, ncnt0 + 1;
      case Listed(nodes) =>
        CountListed(host, ls, nodes, cnt0, ncnt0);
        ncnt := 0;
        ready, cnt := ScanNodes(host, nodes, cnt0);
    }
  }

  /** The loop, fed with the answers it will get: it ends at the first answer that
      shows this host ready, and not before. Throughout, ncnt counts the failures
      at the end and cnt the not-ready observations since the last failure. */
  method PollReady(host: string, lists: seq<NodeList>) returns (ready: bool, taken: nat, cnt: nat, ncnt: nat)
    ensures ncnt <= taken <= |lists|
    ensures ready ==> taken > 0 && ShowsReady(host, lists[taken - 1])
    ensures forall k :: 0 <= k < taken && (ready ==> k < taken - 1) ==> !ShowsReady(host, lists[k])
    ensures forall k :: taken - ncnt <= k < taken ==> lists[k].Failed?
    ensures ncnt < taken ==> lists[taken - ncnt - 1].Listed?
    ensures forall j: nat ::
              j <= taken && (j > 0 ==> lists[j - 1].Failed?) && (forall k :: j <= k < taken ==> lists[k].Listed?) ==>
                cnt == Observed(host, lists[j..taken])
    ensures ready ==> IsPolled(host, lists[..taken])
    ensures !ready ==> taken == |lists| && forall k :: 0 <= k <= |lists| ==> !IsPolled(host, lists[..k])
    ensures Counted(host, lists[..taken], cnt, ncnt)
  {
    ready, taken, cnt, ncnt := false, 0, 0, 0;
    while !ready && taken < |lists|
      invariant taken <= |lists|
      invariant forall k :: 0 <= k < taken - 1 ==> !ShowsReady(host, lists[k])
      invariant if taken > 0 then ready <==> ShowsReady(host, lists[taken - 1]) else !ready
      invariant Counted(host, lists[..taken], cnt, ncnt)
      decreases |lists| - taken
    {
      assert lists[..taken + 1] == lists[..taken] + [lists[taken]];
      ready, cnt, ncnt := PollOnce(host, lists[taken], cnt, ncnt, lists[..taken]);
      taken := taken + 1;
    }
    if !ready {
      forall k | 0 <= k <= |lists| ensures !IsPolled(host, lists[..k]) {}
    }
    CountedIs(host, lists[..taken], cnt, ncnt);
    forall j: nat | j <= taken && (j > 0 ==> lists[j - 1].Failed?) && (forall k :: j <= k < taken ==> lists[k].Listed?)
      ensures cnt == Observed(host, lists[j..taken])
    {
      assert lists[..taken][j..] == lists[j..taken];
    }
  }

  // ---- Patching the address of a service ----

  /** How one turn of the aihack or nexushack loop ends. */
  datatype Attempt = ConfigError | ClientError | GetError | UpdateError | Updated

  /** The attempts of a hack loop that has ended. */
  ghost predicate IsHackDone(tries: seq<Attempt>) {
    |tries| > 0 && tries[|tries| - 1].Updated? && forall k :: 0 <= k < |tries| - 1 ==> !tries[k].Updated?
  }

  method HackService(tries: seq<Attempt>) returns (ready: bool, cnt: nat)
    ensures cnt <= |tries|
    ensures ready ==> IsHackDone(tries[..cnt])
    ensures ready ==> cnt > 0 && tries[cnt - 1] == Updated && Updated !in tries[..cnt - 1]
    ensures !ready ==> cnt == |tries| && Updated !in tries
  {
    ready, cnt := false, 0;
    while !ready && cnt < |tries|
      invariant cnt <= |tries| && (ready ==> cnt > 0)
      invariant forall k :: 0 <= k < cnt ==> (tries[k].Updated? <==> ready && k == cnt - 1)
      decreases |tries| - cnt
    {
      if tries[cnt].Updated? {
        ready := true;
      }
      cnt := cnt + 1;
    }
  }

  // ---- The rke2 config ----

  datatype K8sArgs = K8sArgs(prime: bool, worker: bool, upstream: string, vip: string)

  const COMMON_LINES := ["---", "token: bootstraptoken"]

  const SERVER_LINES := [
    "write-kubeconfig-mode: \"0644\"",
    "selinux: false",
    "disable:",
    "#- rke2-ingress-nginx",
    "- rke2-snapshot-validation-webhook",
    "- rke2-snapshot-controller",
    "- rke2-snapshot-controller-crd"
  ]

  /** strings.Split with a one-character separator. */
  function Split(s: string, sep: char): (parts: seq<string>)
    ensures |parts| >= 1
    ensures |parts| == 1 <==> sep !in s
    ensures forall p :: p in parts ==> sep !in p
  {
    if |s| == 0 then [""] else
      var rest := Split(s[1..], sep);
      if s[0] == sep then [""] + rest else [[s[0]] + rest[0]] + rest[1..]
  }

  function Join(parts: seq<string>, sep: char): string
    requires |parts| > 0
  {
    if |parts| == 1 then parts[0] else parts[0] + [sep] + Join(parts[1..], sep)
  }

  /** Splitting and joining undo each other: the parts are the string cut at every
      separator, and the only parts without one that join to it. */
  lemma {:induction false} SplitJoins(s: string, sep: char)
    ensures Join(Split(s, sep), sep) == s
  {
    if |s| > 0 {
      var rest := Split(s[1..], sep);
      SplitJoins(s[1..], sep);
      if s[0] == sep {
        assert Split(s, sep)[1..] == rest;
      } else {
        assert Split(s, sep)[1..] == rest[1..];
      }
    }
  }

  lemma {:induction false} JoinSplits(parts: seq<string>, sep: char)
    requires |parts| > 0 && forall p :: p in parts ==> sep !in p
    ensures Split(Join(parts, sep), sep) == parts
  {
    if |parts| == 1 {
      SplitWhole(parts[0], sep);
    } else {
      JoinSplits(parts[1..], sep);
      SplitAtFirst(parts[0], sep, Join(parts[1..], sep));
    }
  }

  function SanLines(vip: string): seq<string>
    requires ':' in vip
  {
    var parts := Split(vip, ':');
    ["tls-san:", "  - " + parts[1], "  - " + parts[0]]
  }

  function ServerLine(upstream: string): string {
    "server: https://" + upstream + ":9345"
  }

  /** A vip that is given must hold a colon; else indexing the parts fails. */
  predicate Renders(a: K8sArgs) {
    a.worker || a.vip == "" || ':' in a.vip
  }

  /** The lines of the config file. */
  function ConfigLines(a: K8sArgs): seq<string>
    requires Renders(a)
  {
    COMMON_LINES
    + (if a.worker then [] else SERVER_LINES + if a.vip != "" then SanLines(a.vip) else [])
    + if a.prime then [] else [ServerLine(a.upstream)]
  }

  /** Assembling the config by successive appends; None when the program panics. */
  method RenderConfig(a: K8sArgs) returns (r: Option<seq<string>>)
    ensures r == if Renders(a) then Some(ConfigLines(a)) else None
  {
    var config := COMMON_LINES;
    if !a.worker {
      config := config + SERVER_LINES;
      if a.vip != "" {
        var parts := Split(a.vip, ':');
        if |parts| < 2 {
          return None;
        }
        config := config + ["tls-san:", "  - " + parts[1], "  - " + parts[0]];
      }
    }
    if !a.prime {
      config := config + [ServerLine(a.upstream)];
    }
    ghost var role := if a.worker then [] else SERVER_LINES + if a.vip != "" then SanLines(a.vip) else [];
    assert config == COMMON_LINES + role + if a.prime then [] else [ServerLine(a.upstream)];
    return Some(config);
  }

  predicate IsServerLine(line: string) {
    "server:" <= line
  }

  /** The host that a server line names. */
  function UpstreamOf(line: string): Option<string> {
    var front, back := "server: https://", ":9345";
    if |line| >= |front| + |back| && line[..|front|] == front && line[|line| - |back|..] == back then
      Some(line[|front|..|line| - |back|])
    else None
  }

  /** A server line names exactly its upstream, and different upstreams have different lines. */
  lemma ServerLineNames(upstream: string)
    ensures UpstreamOf(ServerLine(upstream)) == Some(upstream)
    ensures forall other :: ServerLine(other) == ServerLine(upstream) ==> other == upstream
  {
    assert ServerLine(upstream)[..16] == "server: https://";
    forall other | ServerLine(other) == ServerLine(upstream) ensures other == upstream {
      assert ServerLine(other)[16..|ServerLine(other)| - 5] == other;
      assert ServerLine(upstream)[16..|ServerLine(upstream)| - 5] == upstream;
    }
  }

  predicate IsSanLine(line: string) {
    "  - " <= line
  }

  /** The addresses a config lists under tls-san. */
  function Sans(lines: seq<string>): seq<string> {
    if |lines| == 0 then []
    else if IsSanLine(lines[|lines| - 1]) then Sans(lines[..|lines| - 1]) + [lines[|lines| - 1][4..]]
    else Sans(lines[..|lines| - 1])
  }

  /** The hosts a config joins through. */
  function Servers(lines: seq<string>): seq<string> {
    if |lines| == 0 then []
    else if IsServerLine(lines[|lines| - 1]) then Servers(lines[..|lines| - 1]) + [lines[|lines| - 1]]
    else Servers(lines[..|lines| - 1])
  }

  lemma {:induction false} SplitAtFirst(a: string, sep: char, b: string)
    requires sep !in a
    ensures Split(a + [sep] + b, sep) == [a] + Split(b, sep)
  {
    var s := a + [sep] + b;
    if |a| == 0 {
      assert s[1..] == b;
    } else {
      assert s[1..] == a[1..] + [sep] + b;
      SplitAtFirst(a[1..], sep, b);
      assert [s[0]] + a[1..] == a;
      assert Split(s[1..], sep)[1..] == Split(b, sep);
    }
  }

  lemma {:induction false} SplitWhole(s: string, sep: char)
    requires sep !in s
    ensures Split(s, sep) == [s]
  {
    if |s| > 0 {
      SplitWhole(s[1..], sep);
      assert [s[0]] + s[1..] == s;
    }
  }

  /** The vip argument round trip, with its exact condition: splitting "ip:fqdn"
      recovers both if and only if neither holds a colon. */
  lemma {:induction false} VipRoundTrip(ip: string, fqdn: string)
    ensures var parts := Split(ip + ":" + fqdn, ':');
            |parts| >= 2 && (parts[0] == ip && parts[1] == fqdn <==> ':' !in ip && ':' !in fqdn)
  {
    var s := ip + ":" + fqdn;
    assert s[|ip|] == ':';
    var parts := Split(s, ':');
    assert parts[0] in parts && parts[1] in parts;
    if ':' !in ip && ':' !in fqdn {
      SplitAtFirst(ip, ':', fqdn);
      SplitWhole(fqdn, ':');
    }
  }

  lemma ServersConcat(a: seq<string>, b: seq<string>)
    ensures Servers(a + b) == Servers(a) + Servers(b)
  {
    if |b| == 0 {
      assert a + b == a;
    } else {
      assert (a + b)[..|a + b| - 1] == a + b[..|b| - 1];
      ServersConcat(a, b[..|b| - 1]);
    }
  }

  lemma SansConcat(a: seq<string>, b: seq<string>)
    ensures Sans(a + b) == Sans(a) + Sans(b)
  {
    if |b| == 0 {
      assert a + b == a;
    } else {
      assert (a + b)[..|a + b| - 1] == a + b[..|b| - 1];
      SansConcat(a, b[..|b| - 1]);
    }
  }

  lemma NoServers(lines: seq<string>)
    requires forall i :: 0 <= i < |lines| ==> !IsServerLine(lines[i])
    ensures Servers(lines) == []
  {
  }

  lemma NoSans(lines: seq<string>)
    requires forall i :: 0 <= i < |lines| ==> !IsSanLine(lines[i])
    ensures Sans(lines) == []
  {
  }

  /** The fixed lines join nobody and list no address. */
  lemma FixedLines()
    ensures Servers(COMMON_LINES) == [] && Sans(COMMON_LINES) == []
    ensures Servers(SERVER_LINES) == [] && Sans(SERVER_LINES) == []
  {
    forall i | 0 <= i < |COMMON_LINES| ensures !IsServerLine(COMMON_LINES[i]) && !IsSanLine(COMMON_LINES[i]) {
      assert COMMON_LINES[i][0] in {'-', 't'};
    }
    forall i | 0 <= i < |SERVER_LINES| ensures !IsServerLine(SERVER_LINES[i]) && !IsSanLine(SERVER_LINES[i]) {
      assert SERVER_LINES[i][0] in {'w', 's', 'd', '#', '-'};
      if i == 1 {
        assert SERVER_LINES[i][2] == 'l';
      }
    }
    NoServers(COMMON_LINES);
    NoSans(COMMON_LINES);
    NoServers(SERVER_LINES);
    NoSans(SERVER_LINES);
  }

  lemma {:induction false} VipLines(vip: string)
    requires ':' in vip
    ensures Servers(SanLines(vip)) == []
    ensures Sans(SanLines(vip)) == [Split(vip, ':')[1], Split(vip, ':')[0]]
  {
    var l, parts := SanLines(vip), Split(vip, ':');
    assert l[0][0] == 't' && l[1][0] == ' ' && l[2][0] == ' ';
    NoServers(l);
    assert l[1][4..] == parts[1] && l[2][4..] == parts[0];
    assert l[..2] == [l[0], l[1]] && l[..2][..1] == [l[0]];
    NoSans([l[0]]);
  }

  lemma JoinLine(upstream: string)
    ensures Servers([ServerLine(upstream)]) == [ServerLine(upstream)] && Sans([ServerLine(upstream)]) == []
  {
    var l := ServerLine(upstream);
    assert l[..7] == "server:" && l[0] == 's';
  }

  /** What a config says of the cluster: the prime joins nobody and every other node
      joins through its upstream; control-plane nodes, and only they, list the
      fqdn and the address of the vip. */
  lemma ConfigRoles(a: K8sArgs)
    requires Renders(a)
    ensures Servers(ConfigLines(a)) == if a.prime then [] else [ServerLine(a.upstream)]
    ensures Sans(ConfigLines(a)) ==
              if a.worker || a.vip == "" then [] else [Split(a.vip, ':')[1], Split(a.vip, ':')[0]]
  {
    var role := if a.worker then [] else SERVER_LINES + if a.vip != "" then SanLines(a.vip) else [];
    var server := if a.prime then [] else [ServerLine(a.upstream)];
    FixedLines();
    JoinLine(a.upstream);
    ServersConcat(COMMON_LINES + role, server);
    ServersConcat(COMMON_LINES, role);
    SansConcat(COMMON_LINES + role, server);
    SansConcat(COMMON_LINES, role);
    if !a.worker {
      if a.vip != "" {
        VipLines(a.vip);
        ServersConcat(SERVER_LINES, SanLines(a.vip));
        SansConcat(SERVER_LINES, SanLines(a.vip));
      } else {
        assert role == SERVER_LINES;
      }
    }
  }

  /** The whole config, line by line. */
  lemma ConfigIs(a: K8sArgs)
    ensures Renders(a) <==> a.worker || a.vip == "" || ':' in a.vip
    ensures Renders(a) ==>
              ConfigLines(a) ==
              ["---", "token: bootstraptoken"]
              + (if a.worker then [] else
                   ["write-kubeconfig-mode: \"0644\"", "selinux: false", "disable:", "#- rke2-ingress-nginx",
                    "- rke2-snapshot-validation-webhook", "- rke2-snapshot-controller",
                    "- rke2-snapshot-controller-crd"]
                   + (if a.vip == "" then [] else
                        ["tls-san:", "  - " + Split(a.vip, ':')[1], "  - " + Split(a.vip, ':')[0]]))
              + (if a.prime then [] else ["server: https://" + a.upstream + ":9345"])
  {
  }

  /** The hosts that a rendered config names as its server: its upstream, and none for the prime. */
  lemma ConfigNamesUpstream(a: K8sArgs)
    requires Renders(a)
    ensures var servers := Servers(ConfigLines(a));
            && |servers| == (if a.prime then 0 else 1)
            && (!a.prime ==> UpstreamOf(servers[0]) == Some(a.upstream))
  {
    ConfigRoles(a);
    ServerLineNames(a.upstream);
  }
}
