/** How append grows a slice of interfaces holding pointers, 16 bytes each, in the
    runtime of Go 1.22: a wanted capacity, rounded up to what the allocator hands out. */
module GoGrowth {
  import opened GoSlices

  /** Below this capacity a slice doubles; from it on, it grows by a quarter and more. */
  const THRESHOLD: nat := 256

  /** From 33 elements on, an array of pointers shares its block with a header. */
  const HEADERLESS: nat := 32

  /** The longest array in a block of a size class, and the elements of a page. */
  const SMALL: nat := 2047
  const PAGE: nat := 512

  function GrownByQuarters(cap: nat, need: nat): (r: nat)
    requires cap < need
    ensures r >= need
    decreases need - cap
  {
    var larger := cap + (cap + 3 * THRESHOLD) / 4;
    if larger >= need then larger else GrownByQuarters(larger, need)
  }

  /** The capacity wanted, before rounding. */
  function Wanted(cap: nat, need: nat): nat {
    if need > 2 * cap then need
    else if cap < THRESHOLD || need <= cap then 2 * cap
    else GrownByQuarters(cap, need)
  }

  function Multiple(n: nat, k: nat): nat
    requires k > 0
  {
    (n + k - 1) / k * k
  }

  /** The least size class that holds n elements, in elements. */
  function SizeClass(n: nat): nat
    requires n <= SMALL + 1
  {
    if n <= 16 then n
    else if n <= 32 then Multiple(n, 2)
    else if n <= 48 then Multiple(n, 4)
    else if n <= 96 then Multiple(n, 8)
    else if n <= 144 then Multiple(n, 16)
    else if n <= 168 then 168 else if n <= 192 then 192 else if n <= 200 then 200 else if n <= 216 then 216
    else if n <= 256 then 256 else if n <= 304 then 304 else if n <= 320 then 320 else if n <= 336 then 336
    else if n <= 384 then 384 else if n <= 408 then 408 else if n <= 424 then 424 else if n <= 432 then 432
    else if n <= 512 then 512 else if n <= 592 then 592 else if n <= 608 then 608 else if n <= 640 then 640
    else if n <= 680 then 680 else if n <= 768 then 768 else if n <= 848 then 848 else if n <= 896 then 896
    else if n <= 1024 then 1024 else if n <= 1152 then 1152 else if n <= 1192 then 1192 else if n <= 1280 then 1280
    else if n <= 1360 then 1360 else if n <= 1536 then 1536 else if n <= 1704 then 1704 else if n <= 1792 then 1792
    else 2048
  }

  /** What the allocator hands out for n elements. The header takes less than one. */
  function RoundedUp(n: nat): nat {
    if n <= HEADERLESS then SizeClass(n)
    else if n <= SMALL then SizeClass(n + 1) - 1
    else Multiple(n, PAGE)
  }

  function GoGrow(cap: nat, need: nat): nat {
    RoundedUp(Wanted(cap, need))
  }

  lemma RoundedUpHolds(n: nat)
    ensures n <= RoundedUp(n)
  {
  }

  /** The policy is one: it provides what is needed. */
  lemma GoGrowSuffices()
    ensures Sufficient(GoGrow)
  {
    forall c: nat, m: nat | c < m ensures m <= GoGrow(c, m) {
      RoundedUpHolds(Wanted(c, m));
    }
  }

  /** One quarter more than something below what is needed, at most. */
  lemma {:induction false} QuartersBound(cap: nat, need: nat)
    requires cap < need
    ensures 4 * GrownByQuarters(cap, need) <= 5 * (need - 1) + 3 * THRESHOLD
    decreases need - cap
  {
    var larger := cap + (cap + 3 * THRESHOLD) / 4;
    if larger < need {
      QuartersBound(larger, need);
    }
  }

  /** The capacity up to which the policy may more than double. */
  const SLACK: nat := 591

  lemma GoGrowNearDouble(cap: nat, need: nat)
    requires cap < need
    ensures NearDouble(GoGrow(cap, need), need, SLACK)
  {
    if need <= 2 * cap && THRESHOLD <= cap {
      QuartersBound(cap, need);
    }
  }

  lemma GoDoublesBeyond()
    ensures DoublesBeyond(GoGrow, SLACK)
  {
    forall c: nat, m: nat | c < m ensures NearDouble(GoGrow(c, m), m, SLACK) {
      GoGrowNearDouble(c, m);
    }
  }

  /** Rounding can take a capacity past the double: a full array of 26 goes to 55.
      The slack is exact: a full array of 256 goes to 591. */
  lemma GoMoreThanDoubles(slack: nat)
    ensures GoGrow(26, 27) == 55 && GoGrow(256, 257) == SLACK
    ensures DoublesBeyond(GoGrow, slack) <==> SLACK <= slack
  {
    GoDoublesBeyond();
    assert SizeClass(513) == 592;
    assert slack < SLACK ==> !NearDouble(GoGrow(256, 257), 257, slack);
  }
}
