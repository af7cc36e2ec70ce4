/** Caching every input before any unit is built, and what that gives the units. */
module Universe {
  import opened Units
  import opened FileCache

  /** What a stopped caching loop reports: all inputs done, an error, or an exit of the process. */
  datatype CacheReport = AllDone(dropped: bool) | Stopped

  /** One call the loop made: its client, and what it gave. */
  datatype CallMade = CallMade(id: nat, result: Option<Outcome>)

  lemma {:induction false} TraceSplits(h: Hash, d: Disk, whole: seq<Action>, k: nat)
    requires IsTrace(h, d, whole) && k <= |whole|
    ensures IsTrace(h, d, whole[..k]) && IsTrace(h, After(h, d, whole[..k]), whole[k..])
    ensures After(h, d, whole) == After(h, After(h, d, whole[..k]), whole[k..])
  {
    if k == |whole| {
      assert whole[..k] == whole && whole[k..] == [];
    } else {
      var front := whole[..|whole| - 1];
      TraceSplits(h, d, front, k);
      assert front[..k] == whole[..k] && whole[k..][..|whole| - 1 - k] == front[k..];
    }
  }

  /** What exists keeps existing along a run. */
  lemma StillThere(h: Hash, d: Disk, acts: seq<Action>, s: string)
    requires Inv(h, d) && IsTrace(h, d, acts) && Exists(d, s)
    ensures Exists(After(h, d, acts), s)
  {
    if s != "" {
      RunKeepsFiles(h, d, acts, s);
    }
  }

  /** From a state of a logged run to a later one. */
  lemma StillThereLater(h: Hash, start: Disk, log: seq<Action>, more: seq<Action>, s: string)
    requires Inv(h, start) && IsTrace(h, start, more) && log <= more && Exists(After(h, start, log), s)
    ensures Exists(After(h, start, more), s)
  {
    TraceSplits(h, start, more, |log|);
    assert more[..|log|] == log;
    RunKeepsInv(h, start, log);
    StillThere(h, After(h, start, log), more[|log|..], s);
  }

  lemma StepKeepsFinal(h: Hash, d: Disk, a: Action, id: nat)
    requires Enabled(d, a) && id in d.clients && (d.clients[id].pc.Returned? || d.clients[id].pc.Gone?)
    ensures id in Next(h, d, a).clients && Next(h, d, a).clients[id] == d.clients[id]
  {
  }

  /** A client that has returned or is gone stays as it is. */
  lemma {:induction false} FinalStays(h: Hash, d: Disk, acts: seq<Action>, id: nat)
    requires IsTrace(h, d, acts) && id in d.clients && (d.clients[id].pc.Returned? || d.clients[id].pc.Gone?)
    ensures id in After(h, d, acts).clients && After(h, d, acts).clients[id] == d.clients[id]
  {
    if |acts| > 0 {
      var before := acts[..|acts| - 1];
      FinalStays(h, d, before, id);
      StepKeepsFinal(h, After(h, d, before), acts[|acts| - 1], id);
    }
  }

  lemma FinalStaysLater(h: Hash, start: Disk, log: seq<Action>, more: seq<Action>, id: nat, sum: string,
                        r: Option<Outcome>)
    requires IsTrace(h, start, more) && log <= more && Ended(After(h, start, log), id, sum, r)
    ensures Ended(After(h, start, more), id, sum, r)
  {
    TraceSplits(h, start, more, |log|);
    assert more[..|log|] == log;
    FinalStays(h, After(h, start, log), more[|log|..], id);
  }

  /** A call that ends this way lets the loop go on. */
  predicate GoesOn(r: Option<Outcome>) {
    r.Some? && !r.value.Errored?
  }

  /** The calls made: one for each of the first inputs, logged in that order at these
      positions, each ended as it says. */
  ghost predicate IsLedger(calls: seq<CallMade>, at: seq<nat>, inputs: seq<CachedFile>, pid: nat, d: Disk,
                           log: seq<Action>)
  {
    && |at| == |calls| <= |inputs|
    && (forall k :: 0 <= k < |calls| ==> IsEntry(calls[k], at[k], inputs[k].sha256Sum, pid, d, log))
    && (forall j, k :: 0 <= j < k < |calls| ==> at[j] < at[k])
  }

  ghost predicate IsEntry(call: CallMade, at: nat, sum: string, pid: nat, d: Disk, log: seq<Action>) {
    && at < |log| && log[at].Call? && log[at].id == call.id && log[at].sum == sum && log[at].tmp.pid == pid
    && Ended(d, call.id, sum, call.result)
  }

  lemma EntryStays(h: Hash, start: Disk, call: CallMade, at: nat, sum: string, pid: nat,
                   log: seq<Action>, more: seq<Action>)
    requires IsTrace(h, start, more) && log <= more && IsEntry(call, at, sum, pid, After(h, start, log), log)
    ensures IsEntry(call, at, sum, pid, After(h, start, more), more)
  {
    FinalStaysLater(h, start, log, more, call.id, sum, call.result);
    assert more[at] == log[at];
  }

  lemma LongerLedger(h: Hash, start: Disk, calls: seq<CallMade>, call: CallMade, at: seq<nat>,
                     inputs: seq<CachedFile>, pid: nat, log: seq<Action>, more: seq<Action>)
    requires IsTrace(h, start, more) && log <= more && |calls| < |inputs|
    requires IsLedger(calls, at, inputs, pid, After(h, start, log), log)
    requires IsEntry(call, |log|, inputs[|calls|].sha256Sum, pid, After(h, start, more), more)
    ensures IsLedger(calls + [call], at + [|log|], inputs, pid, After(h, start, more), more)
  {
    var d, e := After(h, start, log), After(h, start, more);
    forall k | 0 <= k < |calls| ensures IsEntry(calls[k], at[k], inputs[k].sha256Sum, pid, e, more) {
      assert IsEntry(calls[k], at[k], inputs[k].sha256Sum, pid, d, log);
      EntryStays(h, start, calls[k], at[k], inputs[k].sha256Sum, pid, log, more);
    }
    AppendEntry(calls, call, at, |log|, inputs, pid, d, log, e, more);
  }

  /** A ledger whose entries still stand, and one entry more at a later position. */
  lemma AppendEntry(calls: seq<CallMade>, call: CallMade, at: seq<nat>, next: nat, inputs: seq<CachedFile>,
                    pid: nat, d: Disk, log: seq<Action>, e: Disk, more: seq<Action>)
    requires IsLedger(calls, at, inputs, pid, d, log) && |calls| < |inputs| && next >= |log|
    requires forall k :: 0 <= k < |calls| ==> IsEntry(calls[k], at[k], inputs[k].sha256Sum, pid, e, more)
    requires IsEntry(call, next, inputs[|calls|].sha256Sum, pid, e, more)
    ensures IsLedger(calls + [call], at + [next], inputs, pid, e, more)
  {
    forall k | 0 <= k < |calls| ensures at[k] < |log| {
      assert IsEntry(calls[k], at[k], inputs[k].sha256Sum, pid, d, log);
    }
  }

  /** What is in the cache stays there. */
  lemma KeysLater(h: Hash, start: Disk, log: seq<Action>, more: seq<Action>)
    requires Inv(h, start) && IsTrace(h, start, more) && log <= more
    ensures After(h, start, log).cache.Keys <= After(h, start, more).cache.Keys
  {
    TraceSplits(h, start, more, |log|);
    assert more[..|log|] == log;
    RunKeepsInv(h, start, log);
    forall s | s in After(h, start, log).cache ensures s in After(h, start, more).cache {
      RunKeepsFiles(h, After(h, start, log), more[|log|..], s);
    }
  }

  /** The episode fails at nothing, nobody cleans up in it, and it delivers this sum. */
  ghost predicate Delivers(h: Hash, ep: Episode, sum: string) {
    && !ep.createFails && !ep.requestFails && !ep.copyFails && ep.renameWorks && h(Joined(ep.chunks)) == sum
    && forall acts, a :: acts in ep.others && a in acts ==> !a.Cleanup?
  }

  lemma DeliveryIsKept(h: Hash, ep: Episode, sum: string, k: nat, t: TmpName)
    requires Delivers(h, ep, sum)
    ensures !RemovedIn(Pause(ep, k), t) && !RemovedEarly(ep, |ep.chunks|, t)
  {
    forall j: nat, a | a in Pause(ep, j) ensures !a.Cleanup? {
      assert Pause(ep, j) in ep.others;
    }
    forall j: nat ensures !RemovedIn(ChunkPause(ep, j), t) {}
  }

  /** The caching loop: one input after another, giving up at the first error. The
      calls it made are returned beside its report, with their positions in the log. */
  method CacheInputs(dir: CacheDir, inputs: seq<CachedFile>, pid: nat, episodes: seq<Episode>)
    returns (report: CacheReport, calls: seq<CallMade>, ghost at: seq<nat>)
    requires dir.Consistent() && |episodes| == |inputs|
    modifies dir
    ensures dir.Consistent() && old(dir.log) <= dir.log && |at| == |calls| <= |inputs|
    ensures forall k :: 0 <= k < |calls| ==>
              && |old(dir.log)| <= at[k] < |dir.log| && dir.log[at[k]].Call?
              && dir.log[at[k]].id == calls[k].id && dir.log[at[k]].sum == inputs[k].sha256Sum
    ensures forall j, k :: 0 <= j < k < |calls| ==> at[j] < at[k]
    ensures forall k :: 0 <= k < |calls| ==>
              && calls[k].id in dir.disk.clients
              && dir.disk.clients[calls[k].id].pc
                 == if calls[k].result.Some? then Returned(calls[k].result.value) else Gone
    ensures forall k :: 0 <= k < |calls| - 1 ==> calls[k].result.Some? && !calls[k].result.value.Errored?
    ensures report == Stopped <==>
              |calls| > 0 && (calls[|calls| - 1].result.None? || calls[|calls| - 1].result.value.Errored?)
    ensures report != Stopped ==>
              && |calls| == |inputs|
              && report == AllDone(exists k :: 0 <= k < |calls| && calls[k].result == Some(RenameFailed))
    ensures report == AllDone(false) ==> forall f :: 0 <= f < |inputs| ==> Exists(dir.disk, inputs[f].sha256Sum)
    ensures (forall k :: 0 <= k < |inputs| ==>
               && !episodes[k].statFails
               && (inputs[k].sha256Sum == "" || inputs[k].sha256Sum in old(dir.disk).cache
                   || (var ep := episodes[k];
                       && !ep.createFails && !ep.requestFails && !ep.copyFails && ep.renameWorks
                       && dir.h(Joined(ep.chunks)) == inputs[k].sha256Sum
                       && forall acts, a :: acts in ep.others && a in acts ==> !a.Cleanup?))) ==>
              report == AllDone(false)
  {
    calls, at := CacheUntilError(dir, inputs, pid, episodes);
    ghost var known := old(dir.disk).cache.Keys;
    forall k | 0 <= k < |calls|
      ensures IsEntry(calls[k], at[k], inputs[k].sha256Sum, pid, dir.disk, dir.log)
      ensures IsSettled(calls[k], dir.h, inputs[k].sha256Sum, episodes[k], known, dir.disk)
    {
    }
    if |calls| > 0 && !GoesOn(calls[|calls| - 1].result) {
      assert !IsSafe(dir.h, episodes[|calls| - 1], inputs[|calls| - 1].sha256Sum, known);
      return Stopped, calls, at;
    }
    var dropped := exists k :: 0 <= k < |calls| && calls[k].result == Some(RenameFailed);
    if dropped {
      var k :| 0 <= k < |calls| && calls[k].result == Some(RenameFailed);
      assert !IsSafe(dir.h, episodes[k], inputs[k].sha256Sum, known);
    }
    return AllDone(dropped), calls, at;
  }

  /** Where the loop stands after some calls. */
  ghost predicate HasMade(calls: seq<CallMade>, at: seq<nat>, h: Hash, inputs: seq<CachedFile>, pid: nat,
                          episodes: seq<Episode>, first: nat, known: set<string>, d: Disk, log: seq<Action>)
    requires |inputs| == |episodes|
  {
    && IsLedger(calls, at, inputs, pid, d, log) && (forall k :: 0 <= k < |at| ==> first <= at[k])
    && known <= d.cache.Keys && AreSettled(calls, h, inputs, episodes, known, d)
  }

  /** The loop itself. */
  method CacheUntilError(dir: CacheDir, inputs: seq<CachedFile>, pid: nat, episodes: seq<Episode>)
    returns (calls: seq<CallMade>, ghost at: seq<nat>)
    requires dir.Consistent() && |episodes| == |inputs|
    modifies dir
    ensures dir.Consistent() && old(dir.log) <= dir.log
    ensures HasMade(calls, at, dir.h, inputs, pid, episodes,
                    |old(dir.log)|, old(dir.disk).cache.Keys, dir.disk, dir.log)
    ensures forall k :: 0 <= k < |calls| - 1 ==> GoesOn(calls[k].result)
    ensures |calls| == |inputs| || (|calls| > 0 && !GoesOn(calls[|calls| - 1].result))
  {
    calls, at := [], [];
    ghost var first, known := |dir.log|, dir.disk.cache.Keys;
    for i := 0 to |inputs|
      invariant dir.Consistent() && old(dir.log) <= dir.log && |calls| == i
      invariant HasMade(calls, at, dir.h, inputs, pid, episodes, first, known, dir.disk, dir.log)
      invariant forall k :: 0 <= k < i ==> GoesOn(calls[k].result)
    {
      calls, at := NextCall(dir, inputs, pid, episodes, calls, at, first, known);
      if !GoesOn(calls[i].result) {
        return;
      }
    }
  }

  /** One turn of the loop. */
  method NextCall(dir: CacheDir, inputs: seq<CachedFile>, pid: nat, episodes: seq<Episode>, calls: seq<CallMade>,
                  ghost at: seq<nat>, ghost first: nat, ghost known: set<string>)
    returns (more: seq<CallMade>, ghost later: seq<nat>)
    requires dir.Consistent() && |episodes| == |inputs| && |calls| < |inputs| && first <= |dir.log|
    requires HasMade(calls, at, dir.h, inputs, pid, episodes, first, known, dir.disk, dir.log)
    modifies dir
    ensures dir.Consistent() && old(dir.log) <= dir.log && |more| == |calls| + 1 && more[..|calls|] == calls
    ensures HasMade(more, later, dir.h, inputs, pid, episodes, first, known, dir.disk, dir.log)
  {
    ghost var next, before := |dir.log|, dir.disk;
    var i := |calls|;
    var call := MakeCall(dir, inputs[i].sha256Sum, pid, episodes[i], calls, at, inputs, known);
    OneMoreSettled(calls, call, dir.h, inputs, episodes, known, before, dir.disk);
    more, later := calls + [call], at + [next];
  }

  /** A call that did not fail or drop its rename leaves its file there, and a safe one did neither. */
  ghost predicate IsSettled(call: CallMade, h: Hash, sum: string, ep: Episode, known: set<string>, d: Disk) {
    && (GoesOn(call.result) && call.result != Some(RenameFailed) ==> Exists(d, sum))
    && (IsSafe(h, ep, sum, known) ==> GoesOn(call.result) && call.result != Some(RenameFailed))
  }

  ghost predicate AreSettled(calls: seq<CallMade>, h: Hash, inputs: seq<CachedFile>, episodes: seq<Episode>,
                             known: set<string>, d: Disk)
    requires |calls| <= |inputs| == |episodes|
  {
    forall k :: 0 <= k < |calls| ==> IsSettled(calls[k], h, inputs[k].sha256Sum, episodes[k], known, d)
  }

  lemma OneMoreSettled(calls: seq<CallMade>, call: CallMade, h: Hash, inputs: seq<CachedFile>, episodes: seq<Episode>,
                       known: set<string>, d: Disk, e: Disk)
    requires |calls| < |inputs| == |episodes| && AreSettled(calls, h, inputs, episodes, known, d)
    requires d.cache.Keys <= e.cache.Keys
    requires IsSettled(call, h, inputs[|calls|].sha256Sum, episodes[|calls|], known, e)
    ensures AreSettled(calls + [call], h, inputs, episodes, known, e)
  {
    forall k | 0 <= k < |calls| ensures IsSettled(calls[k], h, inputs[k].sha256Sum, episodes[k], known, e) {
      assert IsSettled(calls[k], h, inputs[k].sha256Sum, episodes[k], known, d);
    }
  }

  /** The call for this input cannot fail: it is known to be there, or is delivered. */
  ghost predicate IsSafe(h: Hash, ep: Episode, sum: string, known: set<string>) {
    !ep.statFails && (sum in known || sum == "" || Delivers(h, ep, sum))
  }

  /** The call of one turn. */
  method MakeCall(dir: CacheDir, sum: string, pid: nat, ep: Episode, ghost calls: seq<CallMade>,
                  ghost at: seq<nat>, ghost inputs: seq<CachedFile>, ghost known: set<string>)
    returns (call: CallMade)
    requires dir.Consistent() && known <= dir.disk.cache.Keys
    requires |calls| < |inputs| && inputs[|calls|].sha256Sum == sum
    requires IsLedger(calls, at, inputs, pid, dir.disk, dir.log)
    modifies dir
    ensures dir.Consistent() && old(dir.log) <= dir.log
    ensures IsLedger(calls + [call], at + [|old(dir.log)|], inputs, pid, dir.disk, dir.log)
    ensures GoesOn(call.result) && call.result != Some(RenameFailed) ==> Exists(dir.disk, sum)
    ensures IsSafe(dir.h, ep, sum, known) ==> GoesOn(call.result) && call.result != Some(RenameFailed)
    ensures old(dir.disk).cache.Keys <= dir.disk.cache.Keys
  {
    ghost var log, t := dir.log, TmpName(pid, dir.unused);
    var id, r := dir.CacheInput(sum, pid, ep);
    call := CallMade(id, r);
    KeysLater(dir.h, dir.start, log, dir.log);
    LongerLedger(dir.h, dir.start, calls, call, at, inputs, pid, log, dir.log);
    if Delivers(dir.h, ep, sum) {
      DeliveryIsKept(dir.h, ep, sum, 2, t);
      DeliveryIsKept(dir.h, ep, sum, 3, t);
      DeliveryIsKept(dir.h, ep, sum, 4, t);
    }
  }

  /** A cached file is there at any later time, with bytes that hash to its name. */
  ghost predicate IsPresent(h: Hash, e: Disk, sum: string) {
    sum in e.cache && e.cache[sum] < |e.inodes| && h(e.inodes[e.cache[sum]]) == sum
  }

  lemma PresentLater(h: Hash, d: Disk, later: seq<Action>, sum: string)
    requires Inv(h, d) && IsTrace(h, d, later) && sum != "" && Exists(d, sum)
    ensures sum in After(h, d, later).cache
    ensures After(h, d, later).cache[sum] < |After(h, d, later).inodes|
    ensures h(After(h, d, later).inodes[After(h, d, later).cache[sum]]) == sum
  {
    RunKeepsFiles(h, d, later, sum);
    RunKeepsInv(h, d, later);
  }

  /** Every file that building a unit links or copies is in the cache with the right
      bytes, at the end of a caching loop without errors and at any time after it: the
      image of each config, if it is the sum of some input, and each input with a
      destination. No sum in use is empty. */
  lemma SourcesPresent(h: Hash, d: Disk, later: seq<Action>, s: Site)
    requires Inv(h, d) && IsTrace(h, d, later)
    requires forall f :: 0 <= f < |s.inputs| ==> Exists(d, s.inputs[f].sha256Sum)
    ensures forall c, f :: 0 <= c < |s.unit.config| && 0 <= f < |s.inputs| ==>
              var sum := s.unit.config[c].qcow2;
              sum != "" && s.inputs[f].sha256Sum == sum ==> IsPresent(h, After(h, d, later), sum)
    ensures forall f :: 0 <= f < |s.inputs| ==>
              var sum := s.inputs[f].sha256Sum;
              s.inputs[f].dest != "" && sum != "" ==> IsPresent(h, After(h, d, later), sum)
  {
    forall f | 0 <= f < |s.inputs| && s.inputs[f].sha256Sum != ""
      ensures IsPresent(h, After(h, d, later), s.inputs[f].sha256Sum)
    {
      PresentLater(h, d, later, s.inputs[f].sha256Sum);
    }
  }
}
