/** Linking the base image of each config into the artifact directory. A link does not
    replace a file, so a config whose name is taken ends the unit with an error. */
module Images {
  import opened Units

  /** The names taken when the unit starts, the path of the image of a config by its
      name, and whether linking the image of the config at a position works if its
      path is free. */
  datatype Directory = Directory(taken: set<string>, path: string -> string, works: nat -> bool)

  /** The paths taken once the images of the first c configs are linked. */
  function TakenAfter(dir: Directory, cs: seq<Config>, c: nat): set<string>
    requires c <= |cs|
  {
    if c == 0 then dir.taken else TakenAfter(dir, cs, c - 1) + {dir.path(cs[c - 1].name)}
  }

  /** The image of config c is linked, if those before it are. */
  predicate Links(dir: Directory, cs: seq<Config>, c: nat)
    requires c < |cs|
  {
    dir.works(c) && dir.path(cs[c].name) !in TakenAfter(dir, cs, c)
  }

  /** The first c configs are linked, and the next is not. */
  ghost predicate Reaches(dir: Directory, cs: seq<Config>, c: nat) {
    && c <= |cs| && (forall d :: 0 <= d < c ==> Links(dir, cs, d))
    && (c < |cs| ==> !Links(dir, cs, c))
  }

  /** Every config is linked, and the unit gets past its loops. */
  ghost predicate Completes(dir: Directory, cs: seq<Config>) {
    Reaches(dir, cs, |cs|)
  }

  lemma {:induction false} TakenHolds(dir: Directory, cs: seq<Config>, c: nat, p: string)
    requires c <= |cs|
    ensures p in TakenAfter(dir, cs, c) <==> p in dir.taken || exists d :: 0 <= d < c && dir.path(cs[d].name) == p
  {
    if c > 0 {
      TakenHolds(dir, cs, c - 1, p);
    }
  }

  /** When the image of a config is linked, in so many words. */
  lemma LinksIs(dir: Directory, cs: seq<Config>, c: nat)
    requires c < |cs|
    ensures Links(dir, cs, c) <==>
              && dir.works(c) && dir.path(cs[c].name) !in dir.taken
              && forall d :: 0 <= d < c ==> dir.path(cs[d].name) != dir.path(cs[c].name)
  {
    TakenHolds(dir, cs, c, dir.path(cs[c].name));
  }

  ghost predicate DistinctPaths(dir: Directory, cs: seq<Config>) {
    forall c, d :: 0 <= c < d < |cs| ==> dir.path(cs[c].name) != dir.path(cs[d].name)
  }

  /** The exact condition for a unit to complete: every link works if its path is free,
      no path is taken at the start, and no two configs have the same. */
  lemma CompletesIff(dir: Directory, cs: seq<Config>)
    ensures Completes(dir, cs) <==>
              && (forall c :: 0 <= c < |cs| ==> dir.works(c) && dir.path(cs[c].name) !in dir.taken)
              && DistinctPaths(dir, cs)
  {
    forall c | 0 <= c < |cs| { LinksIs(dir, cs, c); }
    assert Completes(dir, cs) <==> forall c :: 0 <= c < |cs| ==> Links(dir, cs, c);
  }

  /** Where nothing is in the way and different names have different paths, a unit
      completes if and only if its configs have different names. */
  lemma CompletesIffDistinct(dir: Directory, cs: seq<Config>)
    requires forall c :: 0 <= c < |cs| ==> dir.works(c) && dir.path(cs[c].name) !in dir.taken
    requires forall a, b :: dir.path(a) == dir.path(b) ==> a == b
    ensures Completes(dir, cs) <==> DistinctConfigs(cs)
  {
    CompletesIff(dir, cs);
  }

  /** In a unit that completes, whatever the directory, the configs have different names. */
  lemma CompletedAreDistinct(dir: Directory, cs: seq<Config>)
    requires Completes(dir, cs)
    ensures DistinctConfigs(cs) && OneDefault(cs)
  {
    CompletesIff(dir, cs);
  }

  /** How far a unit gets, in so many words. */
  lemma ReachesIs(dir: Directory, cs: seq<Config>, c: nat)
    requires Reaches(dir, cs, c)
    ensures c <= |cs| && (c == |cs| <==> Completes(dir, cs))
    ensures forall d :: 0 <= d < c ==>
              && dir.works(d) && dir.path(cs[d].name) !in dir.taken
              && forall e :: 0 <= e < d ==> dir.path(cs[e].name) != dir.path(cs[d].name)
    ensures c < |cs| && dir.works(c) && dir.path(cs[c].name) !in dir.taken ==>
              exists e :: 0 <= e < c && dir.path(cs[e].name) == dir.path(cs[c].name)
  {
    forall d | 0 <= d < |cs| { LinksIs(dir, cs, d); }
  }

  /** How far a unit gets is determined. */
  lemma ReachesOnce(dir: Directory, cs: seq<Config>, c: nat, d: nat)
    requires Reaches(dir, cs, c) && Reaches(dir, cs, d)
    ensures c == d
  {
  }

  /** Conservation of machines in a unit that completes: each is the prime or on the
      list of its config's name, and together they are as many as the counts ask for. */
  lemma CompletedKeepsVms(dir: Directory, cs: seq<Config>, names: seq<string>)
    requires Completes(dir, cs) && Distinct(names) && forall c :: 0 <= c < |cs| ==> cs[c].name in names
    ensures forall v: nat :: v < |Vms(cs)| ==>
              PrimeOf(cs) == Some(v) || v in Group(cs, cs[Vms(cs)[v].config].name)
    ensures (if PrimeOf(cs).Some? then 1 else 0) + Sizes(cs, Vms(cs), names, |Vms(cs)|) == Total(cs, |cs|)
  {
    CompletedAreDistinct(dir, cs);
    VmsConserved(cs);
    SizesSumToTotal(cs, names);
    forall v: nat | v < |Vms(cs)| ensures PrimeOf(cs) == Some(v) || v in Group(cs, cs[Vms(cs)[v].config].name) {
      assert Kept(cs, v);
    }
  }

  /** The prime of a unit that completes is the only first machine of a "default" config. */
  lemma CompletedHasOnePrime(dir: Directory, cs: seq<Config>, v: nat)
    requires Completes(dir, cs) && v < |Vms(cs)|
    ensures PrimeOf(cs) == Some(v) <==> cs[Vms(cs)[v].config].name == "default" && Vms(cs)[v].idx == 0
  {
    CompletedAreDistinct(dir, cs);
    PrimeIsLastFirstDefault(cs);
    if IsFirstDefault(cs, Vms(cs)[v]) {
      forall w | v < w < |Vms(cs)| ensures !IsFirstDefault(cs, Vms(cs)[w]) {
        VmsDistinct(cs, v, w);
      }
    }
  }
}
