/** The names under which a unit registers the resources that belong to no machine.
    The engine rejects a second resource of the same type and name. */
module ResourceNames {
  import opened Units
  import opened Graph
  import opened Images

  datatype ResourceType = Volume | RemoteCommand | LocalCommand

  datatype Name = Name(kind: ResourceType, text: string)

  /** m is named after the unit and its input alone. All other names hold the random
      name of a machine or a random string. */
  predicate IsFixed(m: Node) {
    m.BaseVolume? || m.SshConfig? || m.KubeConfig? || m.VipHack? || m.Apply? || m.VipConfig?
  }

  /** What follows the unit's name in the name of a command. */
  function Rest(s: Site, m: Node): string
    requires Registered(s, m) && IsFixed(m) && !m.BaseVolume?
  {
    match m
    case SshConfig => ":ssh-config"
    case KubeConfig => " copy kubeconfig"
    case VipHack(i) => if s.unit.helmfiles[i] == "ai" then " open-webui service vip hack" else " nexus service vip hack"
    case Apply(i) => " helmfile apply " + s.unit.helmfiles[i]
    case VipConfig(_) => " kube-vip kubeconfig"
  }

  function NameOf(s: Site, m: Node): Name
    requires Registered(s, m) && IsFixed(m)
  {
    if m.BaseVolume? then Name(Volume, "baseimage-" + s.unit.name + "-" + s.unit.config[m.config].name)
    else Name(if m.VipHack? then RemoteCommand else LocalCommand, s.unit.name + Rest(s, m))
  }

  /** The names in full. */
  lemma NamesAre(s: Site, c: nat, i: nat)
    ensures NameOf(s, SshConfig) == Name(LocalCommand, s.unit.name + ":ssh-config")
    ensures Registered(s, KubeConfig) ==> NameOf(s, KubeConfig) == Name(LocalCommand, s.unit.name + " copy kubeconfig")
    ensures c < |s.unit.config| ==>
              NameOf(s, BaseVolume(c)) == Name(Volume, "baseimage-" + s.unit.name + "-" + s.unit.config[c].name)
    ensures Registered(s, Apply(i)) ==>
              NameOf(s, Apply(i)) == Name(LocalCommand, s.unit.name + (" helmfile apply " + s.unit.helmfiles[i]))
    ensures Registered(s, VipConfig(i)) ==>
              NameOf(s, VipConfig(i)) == Name(LocalCommand, s.unit.name + " kube-vip kubeconfig")
    ensures Registered(s, VipHack(i)) && s.unit.helmfiles[i] == "ai" ==>
              NameOf(s, VipHack(i)) == Name(RemoteCommand, s.unit.name + " open-webui service vip hack")
    ensures Registered(s, VipHack(i)) && s.unit.helmfiles[i] == "nexus" ==>
              NameOf(s, VipHack(i)) == Name(RemoteCommand, s.unit.name + " nexus service vip hack")
  {
  }

  ghost predicate DistinctNames(s: Site) {
    forall m, n :: Registered(s, m) && IsFixed(m) && Registered(s, n) && IsFixed(n) && m != n ==>
      NameOf(s, m) != NameOf(s, n)
  }

  lemma SameRest(front: string, a: string, b: string)
    requires front + a == front + b
    ensures a == b
  {
    assert (front + a)[|front|..] == a && (front + b)[|front|..] == b;
  }

  lemma SameConfig(s: Site, c: nat, d: nat)
    requires c < |s.unit.config| && d < |s.unit.config| && NameOf(s, BaseVolume(c)) == NameOf(s, BaseVolume(d))
    ensures s.unit.config[c].name == s.unit.config[d].name
  {
    SameRest("baseimage-" + s.unit.name + "-", s.unit.config[c].name, s.unit.config[d].name);
  }

  /** Commands of one name are of one kind, and of one helmfile if of any. */
  lemma SameCommand(s: Site, m: Node, n: Node)
    requires Registered(s, m) && IsFixed(m) && !m.BaseVolume? && Registered(s, n) && IsFixed(n) && !n.BaseVolume?
    requires NameOf(s, m) == NameOf(s, n)
    ensures (m.SshConfig? <==> n.SshConfig?) && (m.KubeConfig? <==> n.KubeConfig?) && (m.VipHack? <==> n.VipHack?)
    ensures (m.Apply? <==> n.Apply?) && (m.VipConfig? <==> n.VipConfig?)
    ensures m.VipHack? || m.Apply? || m.VipConfig? ==> s.unit.helmfiles[m.step] == s.unit.helmfiles[n.step]
  {
    SameRest(s.unit.name, Rest(s, m), Rest(s, n));
    var a, b := Rest(s, m), Rest(s, n);
    assert a[0] == b[0] && a[1] == b[1];
    if m.Apply? && n.Apply? {
      SameRest(" helmfile apply ", s.unit.helmfiles[m.step], s.unit.helmfiles[n.step]);
    }
  }

  /** No name is registered twice if and only if the configs have different names
      and, where helmfiles are applied, the list repeats none. */
  lemma NamesDistinctExactly(s: Site)
    ensures DistinctNames(s) <==> DistinctConfigs(s.unit.config) && (Helms(s) ==> Distinct(s.unit.helmfiles))
  {
    if DistinctNames(s) {
      forall c, d | 0 <= c < d < |s.unit.config| ensures s.unit.config[c].name != s.unit.config[d].name {
        assert NameOf(s, BaseVolume(c)) != NameOf(s, BaseVolume(d));
      }
      forall i, j | 0 <= i < j < |s.unit.helmfiles| && Helms(s) ensures s.unit.helmfiles[i] != s.unit.helmfiles[j] {
        assert NameOf(s, Apply(i)) != NameOf(s, Apply(j));
      }
    }
    if DistinctConfigs(s.unit.config) && (Helms(s) ==> Distinct(s.unit.helmfiles)) {
      forall m, n | Registered(s, m) && IsFixed(m) && Registered(s, n) && IsFixed(n) && m != n
        ensures NameOf(s, m) != NameOf(s, n)
      {
        if NameOf(s, m) == NameOf(s, n) {
          SameNameSameResource(s, m, n);
        }
      }
    }
  }

  lemma SameNameSameResource(s: Site, m: Node, n: Node)
    requires DistinctConfigs(s.unit.config) && (Helms(s) ==> Distinct(s.unit.helmfiles))
    requires Registered(s, m) && IsFixed(m) && Registered(s, n) && IsFixed(n) && NameOf(s, m) == NameOf(s, n)
    ensures m == n
  {
    if m.BaseVolume? {
      SameConfig(s, m.config, n.config);
    } else {
      SameCommand(s, m, n);
    }
  }

  // ---- All units of a program ----

  predicate HasName(sites: seq<Site>, a: nat, m: Node) {
    a < |sites| && Registered(sites[a], m) && IsFixed(m)
  }

  /** Resources of different units have different names, too. */
  ghost predicate DistinctOverUnits(sites: seq<Site>) {
    forall a: nat, b: nat, m, n :: HasName(sites, a, m) && HasName(sites, b, n) && (a != b || m != n) ==>
      NameOf(sites[a], m) != NameOf(sites[b], n)
  }

  ghost predicate DistinctUnits(sites: seq<Site>) {
    forall a, b :: 0 <= a < b < |sites| ==> sites[a].unit.name != sites[b].unit.name
  }

  /** The unit's name holds none of the characters that follow it in the names of resources. */
  predicate IsPlain(name: string) {
    '-' !in name && ' ' !in name && ':' !in name
  }

  /** Two plain names are equal if the texts that start with them and go on with one
      of those characters are. */
  lemma SamePlain(a: string, x: string, b: string, y: string)
    requires IsPlain(a) && IsPlain(b) && |x| > 0 && x[0] in {'-', ' ', ':'} && |y| > 0 && y[0] in {'-', ' ', ':'}
    requires a + x == b + y
    ensures a == b
  {
    var s := a + x;
    assert s[|a|] == x[0] && s[|b|] == y[0];
    assert forall k :: 0 <= k < |a| ==> s[k] == a[k];
    assert forall k :: 0 <= k < |b| ==> s[k] == b[k];
    assert a == s[..|a|] && b == s[..|b|];
  }

  /** Names of different units differ if the units' names do and are plain. */
  lemma SameUnit(s: Site, u: Site, m: Node, n: Node)
    requires IsPlain(s.unit.name) && IsPlain(u.unit.name)
    requires Registered(s, m) && IsFixed(m) && Registered(u, n) && IsFixed(n) && NameOf(s, m) == NameOf(u, n)
    ensures s.unit.name == u.unit.name
  {
    if m.BaseVolume? {
      var x, y := "-" + s.unit.config[m.config].name, "-" + u.unit.config[n.config].name;
      assert NameOf(s, m).text == "baseimage-" + (s.unit.name + x);
      assert NameOf(u, n).text == "baseimage-" + (u.unit.name + y);
      SameRest("baseimage-", s.unit.name + x, u.unit.name + y);
      SamePlain(s.unit.name, x, u.unit.name, y);
    } else {
      SamePlain(s.unit.name, Rest(s, m), u.unit.name, Rest(u, n));
    }
  }

  ghost predicate EachDistinct(sites: seq<Site>) {
    forall a :: 0 <= a < |sites| ==> DistinctNames(sites[a])
  }

  /** Over all units with plain names, no name is registered twice if and only if the
      units have different names and none repeats a name by itself. */
  lemma UnitNamesDistinctExactly(sites: seq<Site>)
    requires forall a :: 0 <= a < |sites| ==> IsPlain(sites[a].unit.name)
    ensures DistinctOverUnits(sites) <==> DistinctUnits(sites) && EachDistinct(sites)
  {
    if DistinctOverUnits(sites) {
      forall a, b | 0 <= a < b < |sites| ensures sites[a].unit.name != sites[b].unit.name {
        assert HasName(sites, a, SshConfig) && HasName(sites, b, SshConfig);
      }
    }
    if DistinctUnits(sites) && EachDistinct(sites) {
      forall a: nat, b: nat, m, n | HasName(sites, a, m) && HasName(sites, b, n) && (a != b || m != n)
        ensures NameOf(sites[a], m) != NameOf(sites[b], n)
      {
        if a == b {
          assert DistinctNames(sites[a]);
        } else if NameOf(sites[a], m) == NameOf(sites[b], n) {
          SameUnit(sites[a], sites[b], m, n);
        }
      }
    }
  }

  /** So for units that complete, whose configs have different names: the units'
      names differ, and no list of helmfiles that is applied repeats one. */
  lemma CompletedNamesDistinctExactly(sites: seq<Site>, dirs: seq<Directory>)
    requires |dirs| == |sites| && forall a :: 0 <= a < |sites| ==> Completes(dirs[a], sites[a].unit.config)
    requires forall a :: 0 <= a < |sites| ==> IsPlain(sites[a].unit.name)
    ensures DistinctOverUnits(sites) <==>
              && DistinctUnits(sites)
              && forall a :: 0 <= a < |sites| && Helms(sites[a]) ==> Distinct(sites[a].unit.helmfiles)
  {
    UnitNamesDistinctExactly(sites);
    forall a | 0 <= a < |sites|
      ensures DistinctNames(sites[a]) <==> (Helms(sites[a]) ==> Distinct(sites[a].unit.helmfiles))
    {
      CompletedAreDistinct(dirs[a], sites[a].unit.config);
      NamesDistinctExactly(sites[a]);
    }
  }

  /** Names that are not plain can meet: config "b-c" of unit "a", and config "c" of unit "a-b". */
  lemma NamesMeet(s: Site, u: Site)
    requires s.unit.name == "a" && |s.unit.config| > 0 && s.unit.config[0].name == "b-c"
    requires u.unit.name == "a-b" && |u.unit.config| > 0 && u.unit.config[0].name == "c"
    ensures NameOf(s, BaseVolume(0)) == NameOf(u, BaseVolume(0))
  {
    assert "a" + "-" + "b-c" == "a-b" + "-" + "c";
    assert NameOf(s, BaseVolume(0)).text == "baseimage-" + ("a" + "-" + "b-c");
    assert NameOf(u, BaseVolume(0)).text == "baseimage-" + ("a-b" + "-" + "c");
  }
}
