/** The configuration records a unit is built from, and the order in which its
    virtual machines are created. */
module Units {

  datatype Option<+T> = None | Some(value: T)

  datatype Config = Config(name: string, count: int, qcow2: string)

  datatype CachedFile = CachedFile(uri: string, sha256Sum: string, dest: string)

  datatype Unit = Unit(name: string, kind: string, online: bool, config: seq<Config>, helmfiles: seq<string>)

  /** Everything the graph of one unit is a function of; noHelmfile says the
      environment variable NOHELMFILE is set to something. */
  datatype Site = Site(unit: Unit, inputs: seq<CachedFile>, noHelmfile: bool)

  /** A virtual machine, by the position of its config and its number there. */
  datatype Vm = Vm(config: nat, idx: nat)

  /** The machines of one config, in creation order; a negative count is an empty loop. */
  function Row(c: nat, count: int): (row: seq<Vm>)
    ensures |row| == if count < 0 then 0 else count
    ensures forall i :: 0 <= i < |row| ==> row[i] == Vm(c, i)
  {
    if count <= 0 then [] else Row(c, count - 1) + [Vm(c, count - 1)]
  }

  /** The machines of the first c configs, in creation order. */
  function FirstVms(cs: seq<Config>, c: nat): (vms: seq<Vm>)
    requires c <= |cs|
    ensures forall v :: 0 <= v < |vms| ==> vms[v].config < c && vms[v].idx < cs[vms[v].config].count
  {
    if c == 0 then [] else FirstVms(cs, c - 1) + Row(c - 1, cs[c - 1].count)
  }

  /** The machines of all configs, in creation order. */
  function Vms(cs: seq<Config>): (vms: seq<Vm>)
    ensures forall v :: 0 <= v < |vms| ==> vms[v].config < |cs| && vms[v].idx < cs[vms[v].config].count
  {
    FirstVms(cs, |cs|)
  }

  predicate IsNamed(cs: seq<Config>, vm: Vm, name: string) {
    vm.config < |cs| && cs[vm.config].name == name
  }

  predicate IsFirstDefault(cs: seq<Config>, vm: Vm) {
    IsNamed(cs, vm, "default") && vm.idx == 0
  }

  /** The prime after the first n of the machines were created: a later first
      machine of a config named "default" overwrites an earlier one. */
  function PrimeAfter(cs: seq<Config>, vms: seq<Vm>, n: nat): Option<nat>
    requires n <= |vms|
  {
    if n == 0 then None
    else if IsFirstDefault(cs, vms[n - 1]) then Some(n - 1)
    else PrimeAfter(cs, vms, n - 1)
  }

  /** The numbers of those of the first n machines that are filed under `name`. */
  function FiledAfter(cs: seq<Config>, vms: seq<Vm>, name: string, n: nat): seq<nat>
    requires n <= |vms|
  {
    if n == 0 then []
    else if IsNamed(cs, vms[n - 1], name) && !IsFirstDefault(cs, vms[n - 1]) then
      FiledAfter(cs, vms, name, n - 1) + [n - 1]
    else FiledAfter(cs, vms, name, n - 1)
  }

  function PrimeOf(cs: seq<Config>): Option<nat> {
    PrimeAfter(cs, Vms(cs), |Vms(cs)|)
  }

  function Group(cs: seq<Config>, name: string): seq<nat> {
    FiledAfter(cs, Vms(cs), name, |Vms(cs)|)
  }

  // ---- What the two loops over configs and counts leave behind ----

  lemma {:induction false} VmsPrefix(cs: seq<Config>, c: nat)
    requires c <= |cs|
    ensures FirstVms(cs, c) <= Vms(cs)
    decreases |cs| - c
  {
    if c < |cs| {
      VmsPrefix(cs, c + 1);
      assert FirstVms(cs, c) <= FirstVms(cs, c + 1);
    }
  }

  lemma VmIsListed(cs: seq<Config>, c: nat, idx: nat) returns (v: nat)
    requires c < |cs| && idx < cs[c].count
    ensures v < |Vms(cs)| && Vms(cs)[v] == Vm(c, idx)
  {
    v := |FirstVms(cs, c)| + idx;
    VmsPrefix(cs, c + 1);
    assert FirstVms(cs, c + 1)[v] == Row(c, cs[c].count)[idx];
  }

  /** Exactly the machines below their config's count are listed. */
  lemma VmsListExactly(cs: seq<Config>, vm: Vm)
    ensures vm in Vms(cs) <==> vm.config < |cs| && vm.idx < cs[vm.config].count
  {
    if vm.config < |cs| && vm.idx < cs[vm.config].count {
      var v := VmIsListed(cs, vm.config, vm.idx);
    }
  }

  /** They are listed config by config and number by number. */
  lemma {:induction false} FirstVmsInOrder(cs: seq<Config>, c: nat, v: nat, w: nat)
    requires c <= |cs| && v < w < |FirstVms(cs, c)|
    ensures var a, b := FirstVms(cs, c)[v], FirstVms(cs, c)[w];
            a.config < b.config || (a.config == b.config && a.idx < b.idx)
  {
    if w < |FirstVms(cs, c - 1)| {
      FirstVmsInOrder(cs, c - 1, v, w);
    }
  }

  lemma VmsInOrder(cs: seq<Config>, v: nat, w: nat)
    requires v < w < |Vms(cs)|
    ensures var a, b := Vms(cs)[v], Vms(cs)[w];
            a.config < b.config || (a.config == b.config && a.idx < b.idx)
  {
    FirstVmsInOrder(cs, |cs|, v, w);
  }

  lemma VmsDistinct(cs: seq<Config>, v: nat, w: nat)
    requires v < w < |Vms(cs)|
    ensures Vms(cs)[v] != Vms(cs)[w]
  {
    VmsInOrder(cs, v, w);
  }

  /** p is the last of the first n machines that is first of a "default" config. */
  ghost predicate IsLastFirstDefault(cs: seq<Config>, vms: seq<Vm>, n: nat, p: nat)
    requires n <= |vms|
  {
    p < n && IsFirstDefault(cs, vms[p]) && forall v :: p < v < n ==> !IsFirstDefault(cs, vms[v])
  }

  lemma {:induction false} PrimeAfterIsLast(cs: seq<Config>, vms: seq<Vm>, n: nat, p: nat)
    requires n <= |vms|
    ensures PrimeAfter(cs, vms, n) == Some(p) <==> IsLastFirstDefault(cs, vms, n, p)
  {
    if n > 0 {
      PrimeAfterIsLast(cs, vms, n - 1, p);
    }
  }

  lemma PrimeIsLastFirstDefault(cs: seq<Config>)
    ensures forall p: nat :: PrimeOf(cs) == Some(p) <==>
              && p < |Vms(cs)| && IsFirstDefault(cs, Vms(cs)[p])
              && forall v :: p < v < |Vms(cs)| ==> !IsFirstDefault(cs, Vms(cs)[v])
  {
    forall p: nat ensures PrimeOf(cs) == Some(p) <==> IsLastFirstDefault(cs, Vms(cs), |Vms(cs)|, p) {
      PrimeAfterIsLast(cs, Vms(cs), |Vms(cs)|, p);
    }
  }

  ghost predicate Increasing(numbers: seq<nat>) {
    forall i, j :: 0 <= i < j < |numbers| ==> numbers[i] < numbers[j]
  }

  lemma {:induction false} FiledAfterHolds(cs: seq<Config>, vms: seq<Vm>, name: string, n: nat)
    requires n <= |vms|
    ensures forall v: nat :: v in FiledAfter(cs, vms, name, n) <==>
              v < n && IsNamed(cs, vms[v], name) && !IsFirstDefault(cs, vms[v])
    ensures Increasing(FiledAfter(cs, vms, name, n))
  {
    if n > 0 {
      FiledAfterHolds(cs, vms, name, n - 1);
      var front := FiledAfter(cs, vms, name, n - 1);
      forall i | 0 <= i < |front| ensures front[i] < n - 1 {
        assert front[i] in front;
      }
    }
  }

  lemma GroupHoldsExactly(cs: seq<Config>, name: string)
    ensures forall v: nat :: v in Group(cs, name) <==>
              v < |Vms(cs)| && IsNamed(cs, Vms(cs)[v], name) && !IsFirstDefault(cs, Vms(cs)[v])
    ensures Increasing(Group(cs, name))
  {
    FiledAfterHolds(cs, Vms(cs), name, |Vms(cs)|);
  }

  /** The prime in so many words: the last machine that has number 0 of a config
      named "default". */
  lemma PrimeIs(cs: seq<Config>, p: nat)
    ensures PrimeOf(cs) == Some(p) <==>
              && p < |Vms(cs)| && cs[Vms(cs)[p].config].name == "default" && Vms(cs)[p].idx == 0
              && forall v :: p < v < |Vms(cs)| ==> cs[Vms(cs)[v].config].name != "default" || Vms(cs)[v].idx != 0
  {
    PrimeIsLastFirstDefault(cs);
    assert forall v :: 0 <= v < |Vms(cs)| ==>
        (IsFirstDefault(cs, Vms(cs)[v]) <==> cs[Vms(cs)[v].config].name == "default" && Vms(cs)[v].idx == 0);
  }

  /** And the list of a name: the machines of configs of that name, in creation order,
      without those that have number 0 of a config named "default". */
  lemma GroupIs(cs: seq<Config>, name: string, v: nat)
    ensures v in Group(cs, name) <==>
              && v < |Vms(cs)| && cs[Vms(cs)[v].config].name == name
              && !(name == "default" && Vms(cs)[v].idx == 0)
    ensures forall i, j :: 0 <= i < j < |Group(cs, name)| ==> Group(cs, name)[i] < Group(cs, name)[j]
  {
    GroupHoldsExactly(cs, name);
  }

  ghost predicate DistinctConfigs(cs: seq<Config>) {
    forall c, d :: 0 <= c < d < |cs| ==> cs[c].name != cs[d].name
  }

  /** No two configs both named "default" create a machine. */
  ghost predicate OneDefault(cs: seq<Config>) {
    forall c, d :: 0 <= c < d < |cs| && cs[c].name == "default" && cs[d].name == "default" ==>
      cs[c].count <= 0 || cs[d].count <= 0
  }

  /** Machine v is the prime or is filed under its config's name. */
  ghost predicate Kept(cs: seq<Config>, v: nat)
    requires v < |Vms(cs)|
  {
    PrimeOf(cs) == Some(v) || v in Group(cs, cs[Vms(cs)[v].config].name)
  }

  /** Conservation of machines, with its exact condition: the prime and the name
      lists cover every machine if and only if no second "default" config
      overwrites the prime. */
  lemma VmsConserved(cs: seq<Config>)
    ensures (forall v :: 0 <= v < |Vms(cs)| ==> Kept(cs, v)) <==> OneDefault(cs)
  {
    var vms := Vms(cs);
    PrimeIsLastFirstDefault(cs);
    forall name { GroupHoldsExactly(cs, name); }
    if !OneDefault(cs) {
      var c, d :| 0 <= c < d < |cs| && cs[c].name == "default" && cs[d].name == "default"
        && cs[c].count > 0 && cs[d].count > 0;
      var v := VmIsListed(cs, c, 0);
      var w := VmIsListed(cs, d, 0);
      assert IsFirstDefault(cs, vms[v]) && IsFirstDefault(cs, vms[w]);
      assert !Kept(cs, v) || !Kept(cs, w);
    } else {
      forall v | 0 <= v < |vms| ensures Kept(cs, v) {
        forall w | v < w < |vms| && IsFirstDefault(cs, vms[v]) ensures !IsFirstDefault(cs, vms[w]) {
          VmsDistinct(cs, v, w);
        }
      }
    }
  }

  /** The cover is a partition: a machine has one place, lists keep creation
      order and repeat nothing, and the prime is on no list. */
  lemma VmsPartitioned(cs: seq<Config>, a: string, b: string, v: nat)
    requires v in Group(cs, a)
    ensures v < |Vms(cs)| && IsNamed(cs, Vms(cs)[v], a)
    ensures v in Group(cs, b) ==> a == b
    ensures PrimeOf(cs) != Some(v)
    ensures Increasing(Group(cs, a))
  {
    GroupHoldsExactly(cs, a);
    GroupHoldsExactly(cs, b);
    PrimeIsLastFirstDefault(cs);
  }

  // ---- Conservation by number ----

  /** The sum of the first c counts. */
  function Total(cs: seq<Config>, c: nat): nat
    requires c <= |cs|
  {
    if c == 0 then 0 else Total(cs, c - 1) + if cs[c - 1].count < 0 then 0 else cs[c - 1].count
  }

  /** How many of the first n machines the lists of the given names hold together. */
  function Sizes(cs: seq<Config>, vms: seq<Vm>, names: seq<string>, n: nat): nat
    requires n <= |vms|
  {
    if |names| == 0 then 0 else
      Sizes(cs, vms, names[..|names| - 1], n) + |FiledAfter(cs, vms, names[|names| - 1], n)|
  }

  function FirstDefaults(cs: seq<Config>, vms: seq<Vm>, n: nat): nat
    requires n <= |vms|
  {
    if n == 0 then 0 else FirstDefaults(cs, vms, n - 1) + if IsFirstDefault(cs, vms[n - 1]) then 1 else 0
  }

  ghost predicate Distinct(names: seq<string>) {
    forall i, j :: 0 <= i < j < |names| ==> names[i] != names[j]
  }

  /** One more machine lengthens the list of its name and no other. */
  lemma {:induction false} SizesGrow(cs: seq<Config>, vms: seq<Vm>, names: seq<string>, n: nat)
    requires 0 < n <= |vms| && vms[n - 1].config < |cs| && Distinct(names)
    ensures Sizes(cs, vms, names, n) == Sizes(cs, vms, names, n - 1)
              + if cs[vms[n - 1].config].name in names && !IsFirstDefault(cs, vms[n - 1]) then 1 else 0
  {
    if |names| > 0 {
      SizesGrow(cs, vms, names[..|names| - 1], n);
    }
  }

  lemma {:induction false} SizesCount(cs: seq<Config>, vms: seq<Vm>, names: seq<string>, n: nat)
    requires n <= |vms| && Distinct(names)
    requires forall v :: 0 <= v < n ==> vms[v].config < |cs| && cs[vms[v].config].name in names
    ensures FirstDefaults(cs, vms, n) + Sizes(cs, vms, names, n) == n
  {
    if n == 0 {
      NothingFiled(cs, vms, names);
    } else {
      SizesCount(cs, vms, names, n - 1);
      SizesGrow(cs, vms, names, n);
    }
  }

  lemma {:induction false} NothingFiled(cs: seq<Config>, vms: seq<Vm>, names: seq<string>)
    ensures Sizes(cs, vms, names, 0) == 0
  {
    if |names| > 0 {
      NothingFiled(cs, vms, names[..|names| - 1]);
    }
  }

  lemma {:induction false} NoFirstDefaults(cs: seq<Config>, vms: seq<Vm>, n: nat)
    requires n <= |vms| && forall v :: 0 <= v < n ==> !IsFirstDefault(cs, vms[v])
    ensures FirstDefaults(cs, vms, n) == 0
  {
    if n > 0 {
      NoFirstDefaults(cs, vms, n - 1);
    }
  }

  lemma {:induction false} OneFirstDefault(cs: seq<Config>, vms: seq<Vm>, n: nat)
    requires n <= |vms| && forall v, w :: 0 <= v < w < n && IsFirstDefault(cs, vms[v]) ==> !IsFirstDefault(cs, vms[w])
    ensures FirstDefaults(cs, vms, n) == if PrimeAfter(cs, vms, n).Some? then 1 else 0
  {
    if n > 0 {
      if IsFirstDefault(cs, vms[n - 1]) {
        NoFirstDefaults(cs, vms, n - 1);
      } else {
        OneFirstDefault(cs, vms, n - 1);
      }
    }
  }

  lemma {:induction false} TotalIsCount(cs: seq<Config>, c: nat)
    requires c <= |cs|
    ensures |FirstVms(cs, c)| == Total(cs, c)
  {
    if c > 0 {
      TotalIsCount(cs, c - 1);
    }
  }

  /** With one "default" config, the prime and the lists of all names hold together
      as many machines as the counts ask for. */
  lemma SizesSumToTotal(cs: seq<Config>, names: seq<string>)
    requires OneDefault(cs) && Distinct(names) && forall c :: 0 <= c < |cs| ==> cs[c].name in names
    ensures (if PrimeOf(cs).Some? then 1 else 0) + Sizes(cs, Vms(cs), names, |Vms(cs)|) == Total(cs, |cs|)
  {
    var vms := Vms(cs);
    forall v, w | 0 <= v < w < |vms| && IsFirstDefault(cs, vms[v]) ensures !IsFirstDefault(cs, vms[w]) {
      VmsDistinct(cs, v, w);
    }
    OneFirstDefault(cs, vms, |vms|);
    SizesCount(cs, vms, names, |vms|);
    TotalIsCount(cs, |cs|);
  }
}
