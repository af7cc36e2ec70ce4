/** Go slices: a length over a backing array that other slices may share. The
    backing arrays live in one memory, so that sharing is visible. */
module GoSlices {

  /** The backing arrays by address; an array is as long as its capacity. */
  type Memory<T> = seq<seq<T>>

  datatype Slice = Slice(data: nat, len: nat)

  predicate Ok<T>(mem: Memory<T>, s: Slice) {
    s.data < |mem| && s.len <= |mem[s.data]|
  }

  function Cap<T>(mem: Memory<T>, s: Slice): nat
    requires Ok(mem, s)
  {
    |mem[s.data]|
  }

  function Contents<T>(mem: Memory<T>, s: Slice): seq<T>
    requires Ok(mem, s)
  {
    mem[s.data][..s.len]
  }

  /** How append picks a new capacity from the old one and the length needed. */
  type Growth = (nat, nat) -> nat

  /** The least a growth policy must do. */
  ghost predicate Sufficient(grow: Growth) {
    forall c: nat, m: nat :: c < m ==> m <= grow(c, m)
  }

  /** A capacity for length m that is at most twice m, or else at most `slack`. */
  predicate NearDouble(cap: nat, m: nat, slack: nat) {
    cap <= 2 * m || cap <= slack
  }

  /** A policy that more than doubles the length it needs only up to a capacity of `slack`. */
  ghost predicate DoublesBeyond(grow: Growth, slack: nat) {
    forall c: nat, m: nat :: c < m ==> NearDouble(grow(c, m), m, slack)
  }

  /** The capacity after k elements are appended to a slice of length len. */
  function NewCap(cap: nat, len: nat, k: nat, grow: Growth): nat {
    if len + k <= cap then cap else grow(cap, len + k)
  }

  /** The capacity after appends of the given sizes, one after another. */
  function CapAfter(cap: nat, len: nat, sizes: seq<nat>, grow: Growth): nat
    decreases |sizes|
  {
    if |sizes| == 0 then cap else CapAfter(NewCap(cap, len, sizes[0], grow), len + sizes[0], sizes[1..], grow)
  }

  lemma ThreeAppends(cap: nat, len: nat, k: nat, grow: Growth)
    ensures CapAfter(cap, len, [1, 1, k], grow)
            == NewCap(NewCap(NewCap(cap, len, 1, grow), len + 1, 1, grow), len + 2, k, grow)
  {
    var one := NewCap(cap, len, 1, grow);
    var two := NewCap(one, len + 1, 1, grow);
    assert [1, 1, k][1..] == [1, k] && [1, k][1..] == [k] && [k][1..] == [];
    assert CapAfter(cap, len, [1, 1, k], grow) == CapAfter(one, len + 1, [1, k], grow);
    assert CapAfter(one, len + 1, [1, k], grow) == CapAfter(two, len + 2, [k], grow);
  }

  lemma NewCapBound(cap: nat, len: nat, k: nat, grow: Growth, slack: nat)
    requires DoublesBeyond(grow, slack) && NearDouble(cap, len, slack)
    ensures NearDouble(NewCap(cap, len, k, grow), len + k, slack)
  {
  }

  lemma ThreeAppendsBound(cap: nat, len: nat, k: nat, grow: Growth, slack: nat)
    requires DoublesBeyond(grow, slack) && NearDouble(cap, len, slack)
    ensures NearDouble(CapAfter(cap, len, [1, 1, k], grow), len + 2 + k, slack)
  {
    ThreeAppends(cap, len, k, grow);
    NewCapBound(cap, len, 1, grow, slack);
    NewCapBound(NewCap(cap, len, 1, grow), len + 1, 1, grow, slack);
    NewCapBound(NewCap(NewCap(cap, len, 1, grow), len + 1, 1, grow), len + 2, k, grow, slack);
  }

  /** a with xs written from position k on. */
  function Overwrite<T>(a: seq<T>, k: nat, xs: seq<T>): (r: seq<T>)
    requires k + |xs| <= |a|
    ensures |r| == |a| && r[..k] == a[..k] && r[k..k + |xs|] == xs && r[k + |xs|..] == a[k + |xs|..]
  {
    a[..k] + xs + a[k + |xs|..]
  }

  /** r does not reach past the end of s in an array they share. */
  predicate Within(r: Slice, s: Slice) {
    r.data == s.data ==> r.len <= s.len
  }

  /** append(s, xs...): in place when the capacity suffices, else into a new
      array whose unused cells hold `zero`. Slices within s keep their contents. */
  function Append<T>(mem: Memory<T>, s: Slice, xs: seq<T>, grow: Growth, zero: T): (r: (Memory<T>, Slice))
    requires Ok(mem, s) && Sufficient(grow)
    ensures |mem| <= |r.0| && Ok(r.0, r.1)
    ensures r.1.len == s.len + |xs| && Contents(r.0, r.1) == Contents(mem, s) + xs
    ensures r.1.data == if s.len + |xs| <= Cap(mem, s) then s.data else |mem|
    ensures Cap(r.0, r.1) == NewCap(Cap(mem, s), s.len, |xs|, grow)
    ensures forall t :: Ok(mem, t) ==> Ok(r.0, t)
    ensures forall t :: Ok(mem, t) && Within(t, s) ==> Contents(r.0, t) == Contents(mem, t)
  {
    var need, cap := s.len + |xs|, Cap(mem, s);
    if need <= cap then
      (mem[s.data := Overwrite(mem[s.data], s.len, xs)], Slice(s.data, need))
    else
      var larger := Contents(mem, s) + xs + seq(grow(cap, need) - need, _ => zero);
      (mem + [larger], Slice(|mem|, need))
  }

  /** What a slice k holds after it is appended to the slice s it was forked from,
      one element longer: in place, its last slot is written over with its first element. */
  lemma AppendFork<T>(mem: Memory<T>, s: Slice, k: Slice, grow: Growth, zero: T)
    requires Ok(mem, s) && Ok(mem, k) && Sufficient(grow)
    requires k.len == s.len + 1 && (k.data == s.data <==> k.len <= Cap(mem, s))
    requires Contents(mem, k)[..s.len] == Contents(mem, s)
    ensures var xs := Contents(mem, k);
            Contents(Append(mem, s, xs, grow, zero).0, k)
            == if 2 * s.len + 1 <= Cap(mem, s) then xs[..s.len] + [xs[0]] else xs
  {
    var xs := Contents(mem, k);
    var r := Append(mem, s, xs, grow, zero);
    if s.len + |xs| <= Cap(mem, s) {
      assert Contents(r.0, k) == Contents(r.0, r.1)[..s.len + 1];
    }
  }
}
