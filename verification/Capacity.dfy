/** How long the array of vmDepends gets: what appending leaves behind its end is
    what decides whether the k8s slice can be written over. */
module Capacity {
  import opened Units
  import opened GoSlices
  import opened GoGrowth
  import opened Graph

  /** The lengths of fileDepends and vmDepends once v machines are built, when `sent`
      inputs go to each. */
  function FileLen(sent: nat, v: nat): nat {
    if v == 0 then 0 else FileLen(sent, v - 1) + sent
  }

  function VmLen(sent: nat, v: nat): nat {
    if v == 0 then 0 else VmLen(sent, v - 1) + 2 + FileLen(sent, v)
  }

  lemma {:induction false} LengthsMatch(inputs: seq<CachedFile>, v: nat)
    ensures |FileDeps(inputs, false, v)| == FileLen(Sent(inputs, |inputs|), v)
    ensures |VmDeps(inputs, false, v)| == VmLen(Sent(inputs, |inputs|), v)
  {
    if v > 0 {
      LengthsMatch(inputs, v - 1);
      InstallsCount(inputs, v - 1, |inputs|);
    }
  }

  /** The capacity after machine v, given the one before it: the list grows by the
      remote check, by the motd, and by all file installs so far. */
  function NextCap(sent: nat, grow: Growth, v: nat, cap: nat): nat {
    CapAfter(cap, VmLen(sent, v), [1, 1, FileLen(sent, v + 1)], grow)
  }

  /** What one machine adds to vmDepends comes in three appends. */
  lemma NextCapUnrolls(inputs: seq<CachedFile>, grow: Growth, v: nat, cap: nat)
    ensures var n := |VmDeps(inputs, false, v)|;
            NextCap(Sent(inputs, |inputs|), grow, v, cap)
            == NewCap(NewCap(NewCap(cap, n, 1, grow), n + 1, 1, grow), n + 2, |FileDeps(inputs, false, v + 1)|, grow)
  {
    LengthsMatch(inputs, v);
    LengthsMatch(inputs, v + 1);
    ThreeAppends(cap, |VmDeps(inputs, false, v)|, |FileDeps(inputs, false, v + 1)|, grow);
  }

  /** The capacity of vmDepends once v machines are built. */
  function VmCap(sent: nat, grow: Growth, v: nat): nat {
    if v == 0 then 0 else NextCap(sent, grow, v - 1, VmCap(sent, grow, v - 1))
  }

  /** The capacity of vmDepends when k8sDepends is made of it. */
  function LoopCap(s: Site, grow: Growth): nat {
    VmCap(Sent(s.inputs, |s.inputs|), grow, |Machines(s)|)
  }

  /** After the loops, vmDepends has room for the whole k8s slice behind it. */
  predicate HasRoom(s: Site, grow: Growth) {
    var n := |AllVmDeps(s, false)|;
    IsK8s(s) && 1 <= n && 2 * n + 1 <= LoopCap(s, grow)
  }

  // ---- The capacities as a history ----

  ghost predicate Follows(sent: nat, grow: Growth, caps: seq<nat>, v: nat)
    requires v + 1 < |caps|
  {
    caps[v + 1] == NextCap(sent, grow, v, caps[v])
  }

  /** caps lists the capacity after each of v machines, `cap` after the last. */
  ghost predicate IsHistory(sent: nat, grow: Growth, caps: seq<nat>, v: nat, cap: nat) {
    && |caps| == v + 1 && caps[0] == 0 && caps[v] == cap
    && forall u: nat :: u < v ==> Follows(sent, grow, caps, u)
  }

  lemma LongerHistory(sent: nat, grow: Growth, caps: seq<nat>, v: nat, cap: nat)
    requires |caps| == v + 1 && IsHistory(sent, grow, caps, v, caps[v]) && cap == NextCap(sent, grow, v, caps[v])
    ensures IsHistory(sent, grow, caps + [cap], v + 1, cap)
  {
    var longer := caps + [cap];
    forall u: nat | u < v + 1 ensures Follows(sent, grow, longer, u) {
      if u < v {
        assert Follows(sent, grow, caps, u);
      }
    }
  }

  lemma FollowsFrom(sent: nat, grow: Growth, caps: seq<nat>, v: nat)
    requires 0 < v < |caps| && Follows(sent, grow, caps, v - 1) && caps[v - 1] == VmCap(sent, grow, v - 1)
    ensures caps[v] == VmCap(sent, grow, v)
  {
  }

  lemma {:induction false} HistoryHolds(sent: nat, grow: Growth, caps: seq<nat>, v: nat)
    requires |caps| > 0 && IsHistory(sent, grow, caps, |caps| - 1, caps[|caps| - 1]) && v < |caps|
    ensures caps[v] == VmCap(sent, grow, v)
  {
    if v == 0 {
      assert VmCap(sent, grow, 0) == 0;
    } else {
      HistoryHolds(sent, grow, caps, v - 1);
      FollowsFrom(sent, grow, caps, v);
    }
  }

  // ---- When there is room ----

  lemma {:induction false} VmCapBound(sent: nat, grow: Growth, v: nat, slack: nat)
    requires DoublesBeyond(grow, slack)
    ensures NearDouble(VmCap(sent, grow, v), VmLen(sent, v), slack)
  {
    if v > 0 {
      VmCapBound(sent, grow, v - 1, slack);
      ThreeAppendsBound(VmCap(sent, grow, v - 1), VmLen(sent, v - 1), FileLen(sent, v), grow, slack);
    }
  }

  /** Only a policy that more than doubles leaves room, and only while it does. */
  lemma RoomNeedsSlack(s: Site, grow: Growth, slack: nat)
    requires DoublesBeyond(grow, slack) && HasRoom(s, grow)
    ensures 2 * |AllVmDeps(s, false)| < slack
  {
    VmCapBound(Sent(s.inputs, |s.inputs|), grow, |Machines(s)|, slack);
    LengthsMatch(s.inputs, |Machines(s)|);
  }

  /** Under Go's policy, a list of more than 295 entries never has room. */
  lemma GoRoomIsShort(s: Site)
    ensures HasRoom(s, GoGrow) ==> |AllVmDeps(s, false)| <= 295
  {
    if HasRoom(s, GoGrow) {
      GoDoublesBeyond();
      RoomNeedsSlack(s, GoGrow, SLACK);
    }
  }
}
