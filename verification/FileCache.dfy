/** The content-addressed file cache: any number of clients download, check and
    rename files into one directory, step by step and interleaved at will. */
module FileCache {
  import opened Units

  type Content = seq<int>

  /** A hash of file contents; nothing is assumed of it. */
  type Hash = Content -> string

  /** A download's name in the temporary directory of its process. */
  datatype TmpName = TmpName(pid: nat, uuid: nat)

  /** How CacheInput returns. All but Errored are a nil error to the caller;
      RenameFailed is the rename whose error is dropped. */
  datatype Outcome = AlreadyThere | Renamed | ThereMeanwhile | RenameFailed | Errored

  /** Where a client stands. Holding an inode means having the download open or hashed. */
  datatype Pc =
    | Called
    | Missing
    | Downloading(inode: nat)
    | Hashed(inode: nat, sum: string)
    | StillMissing(inode: nat)
    | Returned(outcome: Outcome)
    | Gone

  datatype Client = Client(sum: string, tmp: TmpName, pc: Pc)

  /** File contents by inode, the names in the two directories, and the clients. */
  datatype Disk = Disk(inodes: seq<Content>, cache: map<string, nat>, tmp: map<TmpName, nat>, clients: map<nat, Client>)

  datatype Action =
    | Call(id: nat, sum: string, tmp: TmpName)
    | Stat(id: nat)
    | Create(id: nat)
    | Write(id: nat, chunk: Content)
    | Fail(id: nat)
    | Sum(id: nat)
    | StatAgain(id: nat)
    | Reject(id: nat)
    | Rename(id: nat, works: bool)
    | Crash(id: nat)
    | Cleanup(pid: nat, removed: set<TmpName>)

  /** What os.Stat sees under cache/s; the empty name is the directory itself. */
  predicate Exists(d: Disk, s: string) {
    s == "" || s in d.cache
  }

  predicate At(d: Disk, id: nat, pc: Pc) {
    id in d.clients && d.clients[id].pc == pc
  }

  predicate Holds(c: Client) {
    c.pc.Downloading? || c.pc.Hashed? || c.pc.StillMissing?
  }

  predicate Enabled(d: Disk, a: Action) {
    match a
    case Call(id, sum, tmp) =>
      id !in d.clients && tmp !in d.tmp && forall k :: k in d.clients ==> d.clients[k].tmp != tmp
    case Stat(id) => At(d, id, Called)
    case Create(id) => At(d, id, Missing)
    case Write(id, _) => id in d.clients && d.clients[id].pc.Downloading?
    case Fail(id) => id in d.clients && (d.clients[id].pc.Missing? || d.clients[id].pc.Downloading?)
    case Sum(id) => id in d.clients && d.clients[id].pc.Downloading?
    case StatAgain(id) => id in d.clients && d.clients[id].pc.Hashed? && d.clients[id].pc.sum == d.clients[id].sum
    case Reject(id) => id in d.clients && d.clients[id].pc.Hashed? && d.clients[id].pc.sum != d.clients[id].sum
    case Rename(id, _) => id in d.clients && d.clients[id].pc.StillMissing?
    case Crash(id) => id in d.clients && !d.clients[id].pc.Returned?
    case Cleanup(pid, removed) => forall t :: t in removed ==> t.pid == pid
  }

  function Move(d: Disk, id: nat, pc: Pc): Disk
    requires id in d.clients
  {
    d.(clients := d.clients[id := d.clients[id].(pc := pc)])
  }

  /** The effect of an action. A write goes to the open file, whether or not its name
      is still there; hashing opens the name again; renaming replaces what is there. */
  function Next(h: Hash, d: Disk, a: Action): Disk
    requires Enabled(d, a)
  {
    match a
    case Call(id, sum, tmp) => d.(clients := d.clients[id := Client(sum, tmp, Called)])
    case Stat(id) => Move(d, id, if Exists(d, d.clients[id].sum) then Returned(AlreadyThere) else Missing)
    case Create(id) =>
      Move(d.(inodes := d.inodes + [[]], tmp := d.tmp[d.clients[id].tmp := |d.inodes|]), id, Downloading(|d.inodes|))
    case Write(id, chunk) =>
      var i := d.clients[id].pc.inode;
      if i < |d.inodes| then d.(inodes := d.inodes[i := d.inodes[i] + chunk]) else d
    case Fail(id) => Move(d, id, Returned(Errored))
    case Sum(id) =>
      var t := d.clients[id].tmp;
      if t in d.tmp && d.tmp[t] < |d.inodes| then Move(d, id, Hashed(d.tmp[t], h(d.inodes[d.tmp[t]])))
      else Move(d, id, Returned(Errored))
    case StatAgain(id) =>
      var c := d.clients[id];
      Move(d, id, if Exists(d, c.sum) then Returned(ThereMeanwhile) else StillMissing(c.pc.inode))
    case Reject(id) => Move(d.(tmp := d.tmp - {d.clients[id].tmp}), id, Gone)
    case Rename(id, works) =>
      var c := d.clients[id];
      if works && c.tmp in d.tmp then
        Move(d.(cache := d.cache[c.sum := d.tmp[c.tmp]], tmp := d.tmp - {c.tmp}), id, Returned(Renamed))
      else Move(d, id, Returned(RenameFailed))
    case Crash(id) => Move(d, id, Gone)
    case Cleanup(_, removed) => d.(tmp := d.tmp - removed)
  }

  // ---- The invariant ----

  /** Every cached file hashes to its name. */
  ghost predicate Valid(h: Hash, d: Disk) {
    forall s :: s in d.cache ==> d.cache[s] < |d.inodes| && h(d.inodes[d.cache[s]]) == s
  }

  /** No name of a download reaches a cached file, and no two reach the same file. */
  ghost predicate Apart(d: Disk) {
    && (forall t :: t in d.tmp ==> d.tmp[t] < |d.inodes|)
    && (forall t, s :: t in d.tmp && s in d.cache ==> d.tmp[t] != d.cache[s])
    && (forall t, u :: t in d.tmp && u in d.tmp && t != u ==> d.tmp[t] != d.tmp[u])
  }

  /** A client that holds a file is the only one to, the file is not cached, and its
      name leads to it or is gone. What it knows of the hash is true of the file now.
      A client that has yet to create its file has not got its name taken. */
  ghost predicate Owns(h: Hash, d: Disk, id: nat)
    requires id in d.clients
  {
    var c := d.clients[id];
    && (Holds(c) ==>
          && c.pc.inode < |d.inodes|
          && (forall s :: s in d.cache ==> d.cache[s] != c.pc.inode)
          && (c.tmp in d.tmp ==> d.tmp[c.tmp] == c.pc.inode))
    && (c.pc.Hashed? ==> h(d.inodes[c.pc.inode]) == c.pc.sum)
    && (c.pc.StillMissing? ==> h(d.inodes[c.pc.inode]) == c.sum)
    && (c.pc.Called? || c.pc.Missing? ==> c.tmp !in d.tmp)
    && (c.pc.Returned? && (c.pc.outcome.AlreadyThere? || c.pc.outcome.Renamed? || c.pc.outcome.ThereMeanwhile?) ==>
          Exists(d, c.sum))
  }

  ghost predicate Separate(d: Disk) {
    forall j, k :: j in d.clients && k in d.clients && j != k ==>
      && d.clients[j].tmp != d.clients[k].tmp
      && (Holds(d.clients[j]) && Holds(d.clients[k]) ==> d.clients[j].pc.inode != d.clients[k].pc.inode)
  }

  ghost predicate Inv(h: Hash, d: Disk) {
    Valid(h, d) && Apart(d) && Separate(d) && forall id :: id in d.clients ==> Owns(h, d, id)
  }

  /** A client moving on by itself, taking up no new file. */
  lemma MoveKeepsInv(h: Hash, d: Disk, id: nat, pc: Pc)
    requires Inv(h, d) && id in d.clients
    requires Holds(Client("", d.clients[id].tmp, pc)) ==> Holds(d.clients[id]) && pc.inode == d.clients[id].pc.inode
    requires Owns(h, Move(d, id, pc), id)
    ensures Inv(h, Move(d, id, pc))
  {
    var e := Move(d, id, pc);
    forall k | k in e.clients ensures Owns(h, e, k) {
      assert k in d.clients && Owns(h, d, k);
    }
  }

  lemma CallKeepsInv(h: Hash, d: Disk, a: Action)
    requires Inv(h, d) && Enabled(d, a) && a.Call?
    ensures Inv(h, Next(h, d, a))
  {
    var e := Next(h, d, a);
    forall k | k in e.clients ensures Owns(h, e, k) {
      assert k != a.id ==> Owns(h, d, k);
    }
  }

  /** Names of downloads may vanish at any time. */
  lemma RemovalKeepsInv(h: Hash, d: Disk, removed: set<TmpName>)
    requires Inv(h, d)
    ensures Inv(h, d.(tmp := d.tmp - removed))
  {
    var e := d.(tmp := d.tmp - removed);
    forall k | k in e.clients ensures Owns(h, e, k) {
      assert Owns(h, d, k);
    }
  }

  lemma CreateKeepsInv(h: Hash, d: Disk, id: nat)
    requires Inv(h, d) && At(d, id, Missing)
    ensures Inv(h, Next(h, d, Create(id)))
  {
    var e := Next(h, d, Create(id));
    assert Owns(h, d, id);
    assert Valid(h, e) && Apart(e);
    forall k | k in e.clients ensures Owns(h, e, k) {
      assert Owns(h, d, k);
    }
    assert Separate(e);
  }

  lemma WriteKeepsInv(h: Hash, d: Disk, id: nat, chunk: Content)
    requires Inv(h, d) && id in d.clients && d.clients[id].pc.Downloading?
    ensures Inv(h, Next(h, d, Write(id, chunk)))
  {
    var e := Next(h, d, Write(id, chunk));
    assert Owns(h, d, id);
    assert Valid(h, e) && Apart(e) && Separate(e);
    forall k | k in e.clients ensures Owns(h, e, k) {
      assert Owns(h, d, k);
    }
  }

  lemma RenameKeepsInv(h: Hash, d: Disk, id: nat)
    requires Inv(h, d) && id in d.clients && d.clients[id].pc.StillMissing? && d.clients[id].tmp in d.tmp
    ensures Inv(h, Next(h, d, Rename(id, true)))
  {
    var e := Next(h, d, Rename(id, true));
    assert Owns(h, d, id);
    assert Valid(h, e) && Apart(e) && Separate(e);
    forall k | k in e.clients ensures Owns(h, e, k) {
      assert Owns(h, d, k);
    }
  }

  /** Every action keeps the invariant. */
  lemma {:induction false} NextKeepsInv(h: Hash, d: Disk, a: Action)
    requires Inv(h, d) && Enabled(d, a)
    ensures Inv(h, Next(h, d, a))
  {
    match a
    case Call(_, _, _) => CallKeepsInv(h, d, a);
    case Create(id) => CreateKeepsInv(h, d, id);
    case Write(id, chunk) => WriteKeepsInv(h, d, id, chunk);
    case Cleanup(_, removed) => RemovalKeepsInv(h, d, removed);
    case Reject(id) =>
      RemovalKeepsInv(h, d, {d.clients[id].tmp});
      MoveKeepsInv(h, d.(tmp := d.tmp - {d.clients[id].tmp}), id, Gone);
    case Rename(id, works) =>
      if works && d.clients[id].tmp in d.tmp {
        RenameKeepsInv(h, d, id);
      } else {
        MoveKeepsInv(h, d, id, Returned(RenameFailed));
      }
    case Stat(id) => ClientStepKeepsInv(h, d, a, id);
    case Fail(id) => ClientStepKeepsInv(h, d, a, id);
    case Sum(id) => ClientStepKeepsInv(h, d, a, id);
    case StatAgain(id) => ClientStepKeepsInv(h, d, a, id);
    case Crash(id) => ClientStepKeepsInv(h, d, a, id);
  }

  lemma {:induction false} ClientStepKeepsInv(h: Hash, d: Disk, a: Action, id: nat)
    requires Inv(h, d) && Enabled(d, a)
    requires a == Stat(id) || a == Fail(id) || a == Sum(id) || a == StatAgain(id) || a == Crash(id)
    ensures Inv(h, Next(h, d, a))
  {
    assert Owns(h, d, id);
    MoveKeepsInv(h, d, id, Next(h, d, a).clients[id].pc);
  }

  // ---- Runs ----

  ghost predicate IsTrace(h: Hash, d: Disk, acts: seq<Action>) {
    |acts| == 0 ||
    (IsTrace(h, d, acts[..|acts| - 1]) && Enabled(After(h, d, acts[..|acts| - 1]), acts[|acts| - 1]))
  }

  function After(h: Hash, d: Disk, acts: seq<Action>): Disk {
    if |acts| == 0 then d else
      var before := After(h, d, acts[..|acts| - 1]);
      if Enabled(before, acts[|acts| - 1]) then Next(h, before, acts[|acts| - 1]) else before
  }

  /** Cache validity over all interleavings. */
  lemma {:induction false} RunKeepsInv(h: Hash, d: Disk, acts: seq<Action>)
    requires Inv(h, d) && IsTrace(h, d, acts)
    ensures Inv(h, After(h, d, acts))
  {
    if |acts| > 0 {
      RunKeepsInv(h, d, acts[..|acts| - 1]);
      NextKeepsInv(h, After(h, d, acts[..|acts| - 1]), acts[|acts| - 1]);
    }
  }

  ghost predicate Injective(h: Hash) {
    forall a, b :: h(a) == h(b) ==> a == b
  }

  /** Cache monotonicity: a cached name stays, and under an injective hash so do its bytes. */
  lemma {:induction false} RunKeepsFiles(h: Hash, d: Disk, acts: seq<Action>, s: string)
    requires Inv(h, d) && IsTrace(h, d, acts) && s in d.cache
    ensures s in After(h, d, acts).cache
    ensures After(h, d, acts).cache[s] < |After(h, d, acts).inodes|
    ensures Injective(h) ==> After(h, d, acts).inodes[After(h, d, acts).cache[s]] == d.inodes[d.cache[s]]
  {
    if |acts| > 0 {
      RunKeepsFiles(h, d, acts[..|acts| - 1], s);
    }
    RunKeepsInv(h, d, acts);
  }

  lemma Extend(h: Hash, d: Disk, acts: seq<Action>, a: Action)
    requires IsTrace(h, d, acts) && Enabled(After(h, d, acts), a)
    ensures IsTrace(h, d, acts + [a]) && After(h, d, acts + [a]) == Next(h, After(h, d, acts), a)
  {
    assert (acts + [a])[..|acts|] == acts;
  }

  /** A nil error does not mean the file is there: if the temporary directory is
      cleaned up between the check and the rename, the rename fails unreported. */
  lemma {:induction false} NilWithoutFile(h: Hash, c: Content, t: TmpName) returns (acts: seq<Action>, end: Disk)
    requires h(c) != ""
    ensures var empty := Disk([], map[], map[], map[]);
            Inv(h, empty) && IsTrace(h, empty, acts) && end == After(h, empty, acts)
    ensures At(end, 0, Returned(RenameFailed)) && end.clients[0].sum == h(c) && !Exists(end, h(c))
  {
    var empty := Disk([], map[], map[], map[]);
    var made, writing := DownloadRun(h, c, t);
    var hashed := Next(h, writing, Sum(0));
    Extend(h, empty, made, Sum(0));
    var checked := Next(h, hashed, StatAgain(0));
    Extend(h, empty, made + [Sum(0)], StatAgain(0));
    var cleaned := Next(h, checked, Cleanup(t.pid, {t}));
    Extend(h, empty, made + [Sum(0)] + [StatAgain(0)], Cleanup(t.pid, {t}));
    end := Next(h, cleaned, Rename(0, true));
    Extend(h, empty, made + [Sum(0)] + [StatAgain(0)] + [Cleanup(t.pid, {t})], Rename(0, true));
    acts := made + [Sum(0)] + [StatAgain(0)] + [Cleanup(t.pid, {t})] + [Rename(0, true)];
  }

  /** One client alone on an empty disk, up to the end of its download. */
  lemma DownloadRun(h: Hash, c: Content, t: TmpName) returns (acts: seq<Action>, end: Disk)
    requires h(c) != ""
    ensures var empty := Disk([], map[], map[], map[]); IsTrace(h, empty, acts) && end == After(h, empty, acts)
    ensures end == Disk([c], map[], map[t := 0], map[0 := Client(h(c), t, Downloading(0))])
  {
    var empty := Disk([], map[], map[], map[]);
    var begun, created := CreateRun(h, h(c), t);
    assert [] + c == c;
    end := Next(h, created, Write(0, c));
    Extend(h, empty, begun, Write(0, c));
    acts := begun + [Write(0, c)];
  }

  lemma CreateRun(h: Hash, sum: string, t: TmpName) returns (acts: seq<Action>, end: Disk)
    requires sum != ""
    ensures var empty := Disk([], map[], map[], map[]); IsTrace(h, empty, acts) && end == After(h, empty, acts)
    ensures end == Disk([[]], map[], map[t := 0], map[0 := Client(sum, t, Downloading(0))])
  {
    var empty := Disk([], map[], map[], map[]);
    var called := Next(h, empty, Call(0, sum, t));
    Extend(h, empty, [], Call(0, sum, t));
    var missing := Next(h, called, Stat(0));
    Extend(h, empty, [] + [Call(0, sum, t)], Stat(0));
    end := Next(h, missing, Create(0));
    Extend(h, empty, [] + [Call(0, sum, t)] + [Stat(0)], Create(0));
    acts := [] + [Call(0, sum, t)] + [Stat(0)] + [Create(0)];
  }

  // ---- One call of CacheInput among others ----

  /** What the outside world does to one call: the download it gets, what fails, and
      what others do in each pause between two of its steps. */
  datatype Episode = Episode(chunks: seq<Content>, statFails: bool, createFails: bool, requestFails: bool,
                             copyFails: bool, renameWorks: bool, others: seq<seq<Action>>)

  function Pause(ep: Episode, k: nat): seq<Action> {
    if k < |ep.others| then ep.others[k] else []
  }

  /** a is a step of client id itself. */
  predicate IsStepOf(a: Action, id: nat) {
    !a.Cleanup? && a.id == id
  }

  predicate IsNil(o: Outcome) {
    !o.Errored?
  }

  /** a takes the name t out of the temporary directory. */
  predicate Removes(a: Action, t: TmpName) {
    a.Cleanup? && t in a.removed && forall u :: u in a.removed ==> u.pid == a.pid
  }

  ghost predicate RemovedIn(acts: seq<Action>, t: TmpName) {
    exists a :: a in acts && Removes(a, t)
  }

  /** The download named t cannot be renamed into place: the rename fails, or a
      clean-up between the hashing and the rename takes its name away. */
  ghost predicate Lost(ep: Episode, t: TmpName) {
    !ep.renameWorks || RemovedIn(Pause(ep, 3), t) || RemovedIn(Pause(ep, 4), t)
  }

  /** A clean-up takes the download's name away before it is hashed: in one of the
      pauses before the first n chunks, or in the one after the last. */
  ghost predicate RemovedEarly(ep: Episode, n: nat, t: TmpName) {
    exists k: nat :: k < n && RemovedIn(ChunkPause(ep, k), t)
  }

  /** The pause before chunk k. */
  function ChunkPause(ep: Episode, k: nat): seq<Action> {
    Pause(ep, k + 5)
  }

  lemma OneMoreChunk(ep: Episode, k: nat, t: TmpName)
    ensures RemovedEarly(ep, k + 1, t) <==> RemovedEarly(ep, k, t) || RemovedIn(ChunkPause(ep, k), t)
    ensures !RemovedEarly(ep, 0, t)
  {
    if RemovedEarly(ep, k, t) {
      var j: nat :| j < k && RemovedIn(ChunkPause(ep, j), t);
      assert j < k + 1;
    }
  }

  /** The chunks, one after another. */
  function Joined(chunks: seq<Content>): Content {
    if |chunks| == 0 then [] else Joined(chunks[..|chunks| - 1]) + chunks[|chunks| - 1]
  }

  lemma JoinedOne(c: Content)
    ensures Joined([c]) == c
  {
  }

  lemma {:induction false} JoinedConcat(a: seq<Content>, b: seq<Content>)
    ensures Joined(a + b) == Joined(a) + Joined(b)
  {
    if |b| == 0 {
      assert a + b == a;
    } else {
      assert (a + b)[..|a + b| - 1] == a + b[..|b| - 1];
      JoinedConcat(a, b[..|b| - 1]);
    }
  }

  /** What the pauses and removals of an episode are. */
  lemma PausesAre(ep: Episode, k: nat, t: TmpName)
    ensures k < |ep.others| ==> Pause(ep, k) == ep.others[k]
    ensures k >= |ep.others| ==> Pause(ep, k) == []
    ensures RemovedIn(Pause(ep, k), t) <==>
              exists a :: a in Pause(ep, k) && a.Cleanup? && t in a.removed
                && forall u :: u in a.removed ==> u.pid == a.pid
  {
  }

  predicate NoRename(acts: seq<Action>) {
    forall a :: a in acts ==> !a.Rename?
  }

  /** Nobody else renames a download during the call. */
  ghost predicate Quiet(ep: Episode) {
    forall k :: NoRename(Pause(ep, k))
  }

  /** In a call among quiet others, nothing but its own rename changes the cache. */
  ghost predicate IsUntouched(before: Disk, after: Disk, r: Option<Outcome>, ep: Episode) {
    Quiet(ep) && r != Some(Renamed) ==> after.cache == before.cache
  }

  /** A step of others leaves a client alone, and its name unless it is a clean-up of it. */
  lemma OtherKeepsName(h: Hash, d: Disk, a: Action, id: nat)
    requires Inv(h, d) && Enabled(d, a) && id in d.clients && !IsStepOf(a, id)
    ensures var t := d.clients[id].tmp; t in Next(h, d, a).tmp <==> t in d.tmp && !Removes(a, t)
    ensures id in Next(h, d, a).clients && Next(h, d, a).clients[id] == d.clients[id]
    ensures !a.Rename? ==> Next(h, d, a).cache == d.cache
  {
  }

  /** It leaves the file alone that the client holds, and takes no name out of the cache. */
  lemma OtherKeepsFile(h: Hash, d: Disk, a: Action, id: nat)
    requires Inv(h, d) && Enabled(d, a) && id in d.clients && !IsStepOf(a, id)
    ensures HoldsSame(d, Next(h, d, a), d.clients[id])
    ensures d.cache.Keys <= Next(h, d, a).cache.Keys
  {
    assert Owns(h, d, id);
  }

  /** The file that a client holds has the same bytes on both disks. */
  predicate HoldsSame(d: Disk, e: Disk, c: Client) {
    Holds(c) && c.pc.inode < |d.inodes| ==> c.pc.inode < |e.inodes| && e.inodes[c.pc.inode] == d.inodes[c.pc.inode]
  }

  /** A step that is not taken would have removed nothing. */
  lemma SkippedRemovesNothing(d: Disk, a: Action, id: nat, t: TmpName)
    requires IsStepOf(a, id) || !Enabled(d, a)
    ensures !Removes(a, t)
  {
  }

  /** Identifiers from n on are unused. */
  ghost predicate UnusedFrom(d: Disk, n: nat) {
    && (forall id :: id in d.clients ==> id < n && d.clients[id].tmp.uuid < n)
    && (forall t :: t in d.tmp ==> t.uuid < n)
  }

  /** The first unused identifier after an action. */
  function UnusedAfter(n: nat, a: Action): nat {
    if a.Call? then Larger(n, Larger(a.id + 1, a.tmp.uuid + 1)) else n
  }

  function Larger(m: nat, n: nat): nat {
    if m < n then n else m
  }

  lemma UnusedGrows(h: Hash, d: Disk, a: Action, n: nat)
    requires UnusedFrom(d, n) && Enabled(d, a)
    ensures UnusedFrom(Next(h, d, a), UnusedAfter(n, a))
  {
  }

  class CacheDir {
    const h: Hash
    ghost const start: Disk
    var disk: Disk
    var unused: nat
    ghost var log: seq<Action>

    /** The disk is what the logged run made of the one at the start. */
    ghost predicate Consistent()
      reads this
    {
      && Inv(h, start) && IsTrace(h, start, log) && disk == After(h, start, log)
      && Inv(h, disk) && UnusedFrom(disk, unused)
    }

    constructor (h: Hash, start: Disk, unused: nat)
      requires Inv(h, start) && UnusedFrom(start, unused)
      ensures Consistent() && this.h == h && this.start == start && disk == start && log == []
    {
      this.h, this.start, disk, this.unused, log := h, start, start, unused, [];
    }

    method Do(a: Action)
      requires Consistent() && Enabled(disk, a)
      modifies this
      ensures Consistent() && disk == Next(h, old(disk), a) && log == old(log) + [a]
    {
      NextKeepsInv(h, disk, a);
      Extend(h, start, log, a);
      UnusedGrows(h, disk, a, unused);
      disk, unused, log := Next(h, disk, a), UnusedAfter(unused, a), log + [a];
    }

    /** The steps of others in one pause; those that are not possible do not happen. */
    method Others(id: nat, acts: seq<Action>)
      requires Consistent() && id in disk.clients
      modifies this
      ensures Consistent() && old(log) <= log
      ensures id in disk.clients && disk.clients[id] == old(disk).clients[id]
      ensures var t := old(disk).clients[id].tmp; t in disk.tmp <==> t in old(disk).tmp && !RemovedIn(acts, t)
      ensures NoRename(acts) ==> disk.cache == old(disk).cache
      ensures HoldsSame(old(disk), disk, old(disk).clients[id]) && old(disk).cache.Keys <= disk.cache.Keys
    {
      ghost var t := disk.clients[id].tmp;
      for i := 0 to |acts|
        invariant Consistent() && old(log) <= log
        invariant id in disk.clients && disk.clients[id] == old(disk).clients[id]
        invariant t in disk.tmp <==> t in old(disk).tmp && !RemovedIn(acts[..i], t)
        invariant NoRename(acts) ==> disk.cache == old(disk).cache
        invariant HoldsSame(old(disk), disk, old(disk).clients[id]) && old(disk).cache.Keys <= disk.cache.Keys
      {
        OneMoreAction(acts, i, t);
        Other(id, acts[i]);
      }
      assert acts[..|acts|] == acts;
    }

    /** A step of another client, if it is possible. */
    method Other(id: nat, a: Action)
      requires Consistent() && id in disk.clients
      modifies this
      ensures Consistent() && old(log) <= log
      ensures id in disk.clients && disk.clients[id] == old(disk).clients[id]
      ensures var t := old(disk).clients[id].tmp; t in disk.tmp <==> t in old(disk).tmp && !Removes(a, t)
      ensures !a.Rename? ==> disk.cache == old(disk).cache
      ensures HoldsSame(old(disk), disk, old(disk).clients[id]) && old(disk).cache.Keys <= disk.cache.Keys
    {
      if !IsStepOf(a, id) && Enabled(disk, a) {
        OtherKeepsName(h, disk, a, id);
        OtherKeepsFile(h, disk, a, id);
        Do(a);
      } else {
        SkippedRemovesNothing(disk, a, id, disk.clients[id].tmp);
      }
    }

    /** CacheInput: r is None when the process exits on a wrong sum or dies of a missing
        result. What it returns follows from what is given before the call, up to a file
        that others put there meanwhile; and a nil return leaves the file in place
        unless its download is lost. */
    method CacheInput(sum: string, pid: nat, ep: Episode) returns (id: nat, r: Option<Outcome>)
      requires Consistent()
      modifies this
      ensures Consistent() && id !in old(disk).clients && Ended(disk, id, sum, r)
      ensures |old(log)| < |log| && log[..|old(log)|] == old(log)
      ensures log[|old(log)|] == Call(id, sum, TmpName(pid, old(unused)))
      ensures ep.statFails ==> r == None
      ensures !ep.statFails && (sum == "" || sum in old(disk).cache) ==> r == Some(AlreadyThere)
      ensures (forall k, a :: a in Pause(ep, k) ==> !a.Rename?) && sum != "" && sum !in old(disk).cache ==>
                r != Some(AlreadyThere) && r != Some(ThereMeanwhile)
      ensures !ep.statFails && r != Some(AlreadyThere) ==>
                var t := TmpName(pid, old(unused));
                if ep.createFails then r == Some(Errored)
                else if ep.requestFails then r == None
                else if ep.copyFails || RemovedEarly(ep, |ep.chunks|, t) || RemovedIn(Pause(ep, 2), t) then
                  r == Some(Errored)
                else if h(Joined(ep.chunks)) != sum then r == None && t !in disk.tmp
                else if !ep.renameWorks || RemovedIn(Pause(ep, 3), t) || RemovedIn(Pause(ep, 4), t) then
                  r == Some(ThereMeanwhile) || r == Some(RenameFailed)
                else r == Some(ThereMeanwhile) || r == Some(Renamed)
      ensures r == Some(Renamed) ==>
                && sum in disk.cache && disk.cache[sum] < |disk.inodes|
                && disk.inodes[disk.cache[sum]] == Joined(ep.chunks)
      ensures r.Some? && IsNil(r.value) && !r.value.RenameFailed? ==> Exists(disk, sum)
      ensures r.Some? && IsNil(r.value) && !Lost(ep, TmpName(pid, old(unused))) ==> Exists(disk, sum)
      ensures r.Some? && IsNil(r.value) && Quiet(ep) && !Exists(old(disk), sum) ==>
                (Exists(disk, sum) <==> !Lost(ep, TmpName(pid, old(unused))))
    {
      id := unused;
      Do(Call(id, sum, TmpName(pid, unused)));
      r := Attempt(id, ep);
      if r.Some? && IsNil(r.value) && !r.value.RenameFailed? {
        NilMeansThere(h, disk, id);
      }
    }

    /** CacheInput once the destination is known. */
    method Attempt(id: nat, ep: Episode) returns (r: Option<Outcome>)
      requires Consistent() && At(disk, id, Called)
      modifies this
      ensures Consistent() && old(log) <= log && Ended(disk, id, old(disk).clients[id].sum, r)
      ensures ep.statFails ==> r == None
      ensures !ep.statFails && Exists(old(disk), old(disk).clients[id].sum) ==> r == Some(AlreadyThere)
      ensures Quiet(ep) && !Exists(old(disk), old(disk).clients[id].sum) ==>
                r != Some(AlreadyThere) && r != Some(ThereMeanwhile)
      ensures !ep.statFails && r != Some(AlreadyThere) ==> IsFetched(h, disk, old(disk).clients[id], ep, r)
      ensures IsUntouched(old(disk), disk, r, ep)
    {
      var missing := Look(id, ep);
      if !missing {
        return ResultOf(disk.clients[id].pc);
      }
      r := Fetch(id, ep);
    }

    /** Looking whether the file is there. A failed look leaves no result to ask, and
        the process dies of that. */
    method Look(id: nat, ep: Episode) returns (missing: bool)
      requires Consistent() && At(disk, id, Called)
      modifies this
      ensures Consistent() && old(log) <= log && (Quiet(ep) ==> disk.cache == old(disk).cache)
      ensures IsAt(disk, id, old(disk).clients[id],
                   if missing then Missing else if ep.statFails then Gone else Returned(AlreadyThere))
      ensures ep.statFails || Exists(old(disk), old(disk).clients[id].sum) ==> !missing
      ensures !ep.statFails && Quiet(ep) && !Exists(old(disk), old(disk).clients[id].sum) ==> missing
    {
      Others(id, Pause(ep, 0));
      if ep.statFails {
        Do(Crash(id));
        return false;
      }
      Do(Stat(id));
      missing := disk.clients[id].pc.Missing?;
      Others(id, Pause(ep, 1));
    }

    /** Creating the download, filling it and publishing it. */
    method Fetch(id: nat, ep: Episode) returns (r: Option<Outcome>)
      requires Consistent() && At(disk, id, Missing)
      modifies this
      ensures Consistent() && old(log) <= log && Ended(disk, id, old(disk).clients[id].sum, r)
      ensures IsFetched(h, disk, old(disk).clients[id], ep, r) && r != Some(AlreadyThere)
      ensures Quiet(ep) && !Exists(old(disk), old(disk).clients[id].sum) ==> r != Some(ThereMeanwhile)
      ensures IsUntouched(old(disk), disk, r, ep)
    {
      var filled := Fill(id, ep);
      if !filled {
        return ResultOf(disk.clients[id].pc);
      }
      r := Check(id, ep);
    }

    /** Creating the download and filling it. A failed request leaves no response to
        close, and the process dies of that. */
    method Fill(id: nat, ep: Episode) returns (filled: bool)
      requires Consistent() && At(disk, id, Missing)
      modifies this
      ensures Consistent() && old(log) <= log && (Quiet(ep) ==> disk.cache == old(disk).cache)
      ensures filled <==> !ep.createFails && !ep.requestFails && !ep.copyFails
      ensures !filled ==> IsAt(disk, id, old(disk).clients[id],
                               if !ep.createFails && ep.requestFails then Gone else Returned(Errored))
      ensures filled ==> IsFilled(old(disk), disk, id, ep)
    {
      if ep.createFails {
        Do(Fail(id));
        return false;
      }
      Do(Create(id));
      if ep.requestFails {
        Do(Crash(id));
        return false;
      }
      filled := Copy(id, ep);
    }

    /** Copying the body of the response, unless that fails. */
    method Copy(id: nat, ep: Episode) returns (copied: bool)
      requires Consistent() && id in disk.clients && disk.clients[id].pc.Downloading?
      requires disk.clients[id].pc.inode < |disk.inodes| && disk.inodes[disk.clients[id].pc.inode] == []
      modifies this
      ensures Consistent() && old(log) <= log && (Quiet(ep) ==> disk.cache == old(disk).cache)
      ensures copied <==> !ep.copyFails
      ensures !copied ==> IsAt(disk, id, old(disk).clients[id], Returned(Errored))
      ensures copied ==> HasWritten(old(disk), disk, id, ep.chunks)
      ensures copied ==>
                var t := old(disk).clients[id].tmp;
                t in disk.tmp <==>
                  t in old(disk).tmp && !RemovedEarly(ep, |ep.chunks|, t) && !RemovedIn(Pause(ep, 2), t)
    {
      Download(id, ep);
      if ep.copyFails {
        Do(Fail(id));
        return false;
      }
      return true;
    }

    /** Copying the body of the response into the file, chunk by chunk. */
    method Download(id: nat, ep: Episode)
      requires Consistent() && id in disk.clients && disk.clients[id].pc.Downloading?
      requires disk.clients[id].pc.inode < |disk.inodes| && disk.inodes[disk.clients[id].pc.inode] == []
      modifies this
      ensures Consistent() && old(log) <= log && (Quiet(ep) ==> disk.cache == old(disk).cache)
      ensures HasWritten(old(disk), disk, id, ep.chunks)
      ensures var t := old(disk).clients[id].tmp;
              t in disk.tmp <==>
                t in old(disk).tmp && !RemovedEarly(ep, |ep.chunks|, t) && !RemovedIn(Pause(ep, 2), t)
    {
      ghost var t := disk.clients[id].tmp;
      OneMoreChunk(ep, 0, t);
      for k := 0 to |ep.chunks|
        invariant Consistent() && old(log) <= log && (Quiet(ep) ==> disk.cache == old(disk).cache)
        invariant HasWritten(old(disk), disk, id, ep.chunks[..k])
        invariant t in disk.tmp <==> t in old(disk).tmp && !RemovedEarly(ep, k, t)
      {
        OneMoreChunk(ep, k, t);
        DownloadChunk(id, ep, k, old(disk));
      }
      assert ep.chunks[..|ep.chunks|] == ep.chunks;
      Others(id, Pause(ep, 2));
    }

    /** One turn of the loop of Download, which started on the disk `first`. */
    method DownloadChunk(id: nat, ep: Episode, k: nat, ghost first: Disk)
      requires Consistent() && k < |ep.chunks|
      requires id in first.clients && first.clients[id].pc.Downloading? && HasWritten(first, disk, id, ep.chunks[..k])
      modifies this
      ensures Consistent() && old(log) <= log && (Quiet(ep) ==> disk.cache == old(disk).cache)
      ensures HasWritten(first, disk, id, ep.chunks[..k + 1])
      ensures var t := first.clients[id].tmp; t in disk.tmp <==> t in old(disk).tmp && !RemovedIn(ChunkPause(ep, k), t)
    {
      Others(id, ChunkPause(ep, k));
      Do(Write(id, ep.chunks[k]));
      assert ep.chunks[..k + 1][..k] == ep.chunks[..k];
    }

    /** Hashing the download, and publishing it if the sum is right. */
    method Check(id: nat, ep: Episode) returns (r: Option<Outcome>)
      requires Consistent() && id in disk.clients && disk.clients[id].pc.Downloading?
      modifies this
      ensures Consistent() && old(log) <= log && Ended(disk, id, old(disk).clients[id].sum, r)
      ensures IsChecked(h, old(disk), disk, old(disk).clients[id], ep, r)
      ensures Quiet(ep) && !Exists(old(disk), old(disk).clients[id].sum) ==> r != Some(ThereMeanwhile)
      ensures IsUntouched(old(disk), disk, r, ep)
    {
      assert Owns(h, disk, id);
      var right := HashDownload(id, ep);
      if !right {
        return ResultOf(disk.clients[id].pc);
      }
      r := Publish(id, ep);
    }

    /** Hashing the download, if it still has its name; on a wrong sum the process
        removes it and exits. */
    method HashDownload(id: nat, ep: Episode) returns (right: bool)
      requires Consistent() && id in disk.clients && disk.clients[id].pc.Downloading?
      modifies this
      ensures Consistent() && old(log) <= log && (Quiet(ep) ==> disk.cache == old(disk).cache)
      ensures var c := old(disk).clients[id];
              && c.pc.inode < |old(disk).inodes| && HoldsSame(old(disk), disk, c)
              && (right <==> c.tmp in old(disk).tmp && h(old(disk).inodes[c.pc.inode]) == c.sum)
              && (right ==> IsAt(disk, id, c, Hashed(c.pc.inode, c.sum)))
              && (right ==> (c.tmp in disk.tmp <==> !RemovedIn(Pause(ep, 3), c.tmp)))
              && (!right && c.tmp in old(disk).tmp ==> IsAt(disk, id, c, Gone) && c.tmp !in disk.tmp)
              && (c.tmp !in old(disk).tmp ==> IsAt(disk, id, c, Returned(Errored)))
    {
      assert Owns(h, disk, id);
      Do(Sum(id));
      if disk.clients[id].pc.Returned? {
        return false;
      }
      Others(id, Pause(ep, 3));
      right := disk.clients[id].pc.sum == disk.clients[id].sum;
      if !right {
        Do(Reject(id));
      }
    }

    /** Looking again, and renaming the download into place. */
    method Publish(id: nat, ep: Episode) returns (r: Option<Outcome>)
      requires Consistent() && id in disk.clients
      requires disk.clients[id].pc.Hashed? && disk.clients[id].pc.sum == disk.clients[id].sum
      modifies this
      ensures Consistent() && old(log) <= log && Ended(disk, id, old(disk).clients[id].sum, r)
      ensures var c := old(disk).clients[id];
              if Exists(old(disk), c.sum) then r == Some(ThereMeanwhile)
              else if ep.renameWorks && c.tmp in old(disk).tmp && !RemovedIn(Pause(ep, 4), c.tmp) then
                && r == Some(Renamed) && c.sum in disk.cache
                && disk.cache[c.sum] == c.pc.inode && HoldsSame(old(disk), disk, c)
              else r == Some(RenameFailed)
      ensures IsUntouched(old(disk), disk, r, ep)
    {
      Do(StatAgain(id));
      if disk.clients[id].pc.Returned? {
        return Some(ThereMeanwhile);
      }
      Others(id, Pause(ep, 4));
      r := MoveIntoPlace(id, ep.renameWorks);
    }

    /** Renaming the download into place; its error is dropped. */
    method MoveIntoPlace(id: nat, works: bool) returns (r: Option<Outcome>)
      requires Consistent() && id in disk.clients && disk.clients[id].pc.StillMissing?
      modifies this
      ensures Consistent() && old(log) <= log && Ended(disk, id, old(disk).clients[id].sum, r)
      ensures var c := old(disk).clients[id];
              if works && c.tmp in old(disk).tmp then
                r == Some(Renamed) && c.sum in disk.cache && disk.cache[c.sum] == c.pc.inode
              else r == Some(RenameFailed) && disk.cache == old(disk).cache
      ensures disk.inodes == old(disk).inodes
    {
      assert Owns(h, disk, id);
      Do(Rename(id, works));
      return Some(disk.clients[id].pc.outcome);
    }
  }

  /** Client id, which holds an empty file on `first`, has written these chunks to it. */
  predicate HasWritten(first: Disk, d: Disk, id: nat, chunks: seq<Content>) {
    && id in first.clients && Holds(first.clients[id]) && id in d.clients && d.clients[id] == first.clients[id]
    && d.clients[id].pc.inode < |d.inodes| && d.inodes[d.clients[id].pc.inode] == Joined(chunks)
  }

  /** Client id has created and filled its download since `first`. */
  ghost predicate IsFilled(first: Disk, d: Disk, id: nat, ep: Episode) {
    && id in first.clients && IsAt(d, id, first.clients[id], Downloading(|first.inodes|))
    && |first.inodes| < |d.inodes| && d.inodes[|first.inodes|] == Joined(ep.chunks)
    && var t := first.clients[id].tmp;
       t in d.tmp <==> !RemovedEarly(ep, |ep.chunks|, t) && !RemovedIn(Pause(ep, 2), t)
  }

  /** How a call ends that has found its file missing. */
  ghost predicate IsFetched(h: Hash, d: Disk, c: Client, ep: Episode, r: Option<Outcome>) {
    if ep.createFails then r == Some(Errored)
    else if ep.requestFails then r == None
    else if ep.copyFails || RemovedEarly(ep, |ep.chunks|, c.tmp) || RemovedIn(Pause(ep, 2), c.tmp) then
      r == Some(Errored)
    else IsPublished(h, d, c, ep, Joined(ep.chunks), r)
  }

  /** How it ends once its download, which still has its name, is hashed. */
  ghost predicate IsPublished(h: Hash, d: Disk, c: Client, ep: Episode, content: Content, r: Option<Outcome>) {
    if h(content) != c.sum then r == None && c.tmp !in d.tmp
    else
      || r == Some(ThereMeanwhile)
      || (Lost(ep, c.tmp) && r == Some(RenameFailed))
      || (!Lost(ep, c.tmp) && r == Some(Renamed) && c.sum in d.cache
          && d.cache[c.sum] < |d.inodes| && d.inodes[d.cache[c.sum]] == content)
  }

  ghost predicate IsChecked(h: Hash, first: Disk, d: Disk, c: Client, ep: Episode, r: Option<Outcome>) {
    Holds(c) && c.pc.inode < |first.inodes| ==>
      if c.tmp in first.tmp then IsPublished(h, d, c, ep, first.inodes[c.pc.inode], r) else r == Some(Errored)
  }

  lemma OneMoreAction(acts: seq<Action>, i: nat, t: TmpName)
    requires i < |acts|
    ensures RemovedIn(acts[..i + 1], t) <==> RemovedIn(acts[..i], t) || Removes(acts[i], t)
    ensures acts[i] in acts
  {
    assert acts[..i + 1] == acts[..i] + [acts[i]];
    if RemovedIn(acts[..i], t) {
      var a :| a in acts[..i] && Removes(a, t);
      assert a in acts[..i + 1];
    }
    if Removes(acts[i], t) {
      assert acts[i] in acts[..i + 1];
    }
  }

  /** Client id is c, gone on to pc. */
  predicate IsAt(d: Disk, id: nat, c: Client, pc: Pc) {
    id in d.clients && d.clients[id] == c.(pc := pc)
  }

  /** How a call has ended: with a result, or with its process. */
  function ResultOf(pc: Pc): Option<Outcome> {
    if pc.Returned? then Some(pc.outcome) else None
  }

  /** Client id asked for sum and has returned r, or its process has exited. */
  predicate Ended(d: Disk, id: nat, sum: string, r: Option<Outcome>) {
    id in d.clients && d.clients[id].sum == sum && d.clients[id].pc == if r.Some? then Returned(r.value) else Gone
  }

  /** A nil return without a failed rename means that the file is there. */
  lemma NilMeansThere(h: Hash, d: Disk, id: nat)
    requires Inv(h, d) && id in d.clients && d.clients[id].pc.Returned?
    requires IsNil(d.clients[id].pc.outcome) && !d.clients[id].pc.outcome.RenameFailed?
    ensures Exists(d, d.clients[id].sum)
  {
    assert Owns(h, d, id);
  }
}
