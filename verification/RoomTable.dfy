/** Which clusters have room under Go's policy: a check of every number of inputs sent
    and of machines whose list is short enough. */
module RoomTable {
  import opened Units
  import opened GoSlices
  import opened GoGrowth
  import opened Graph
  import opened Capacity

  /** The inputs sent and the machines of a cluster that has room. */
  predicate IsRoomy(sent: nat, n: nat) {
    match sent
    case 0 => n == 17 || 72 <= n <= 75
    case 1 => n == 6 || n == 15
    case 4 => n == 7
    case _ => (sent == 8 || sent == 11 || sent == 14) && n == 4
  }

  /** Room is as tabled from n machines on, where the lists have these lengths and this capacity. */
  predicate IsTabled(sent: nat, n: nat, len: nat, file: nat, cap: nat, grow: Growth)
    decreases 296 - len
  {
    len > 295 ||
    (((1 <= len && 2 * len + 1 <= cap) <==> IsRoomy(sent, n))
     && IsTabled(sent, n + 1, len + 2 + file + sent, file + sent, Grown(cap, len, file + sent, grow), grow))
  }

  /** The capacity after the three appends for a machine. */
  function Grown(cap: nat, len: nat, k: nat, grow: Growth): nat {
    NewCap(NewCap(NewCap(cap, len, 1, grow), len + 1, 1, grow), len + 2, k, grow)
  }

  // ---- The values of the policy that are needed ----

  predicate Grows0(grow: Growth) {
    && grow(0, 1) == 1 && grow(1, 2) == 2 && grow(2, 3) == 4 && grow(2, 4) == 4
    && grow(2, 5) == 5 && grow(2, 6) == 6 && grow(2, 7) == 7 && grow(2, 8) == 8
    && grow(2, 9) == 9 && grow(2, 10) == 10 && grow(2, 11) == 11 && grow(2, 12) == 12
    && grow(2, 13) == 13 && grow(2, 14) == 14 && grow(2, 15) == 15 && grow(2, 16) == 16
    && grow(2, 17) == 18 && grow(2, 18) == 18 && grow(2, 19) == 20 && grow(2, 20) == 20
    && grow(2, 21) == 22 && grow(2, 22) == 22 && grow(2, 23) == 24 && grow(2, 24) == 24
    && grow(2, 25) == 26 && grow(2, 26) == 26 && grow(2, 27) == 28 && grow(2, 28) == 28
    && grow(2, 29) == 30 && grow(2, 30) == 30 && grow(2, 31) == 32 && grow(2, 32) == 32
    && grow(2, 33) == 35 && grow(2, 34) == 35 && grow(2, 35) == 35 && grow(2, 36) == 39
    && grow(2, 37) == 39 && grow(2, 38) == 39 && grow(2, 39) == 39 && grow(2, 40) == 43
  }

  predicate Grows1(grow: Growth) {
    && grow(2, 41) == 43 && grow(2, 42) == 43 && grow(2, 43) == 43 && grow(2, 44) == 47
    && grow(2, 45) == 47 && grow(2, 46) == 47 && grow(2, 47) == 47 && grow(2, 48) == 55
    && grow(2, 49) == 55 && grow(2, 50) == 55 && grow(4, 5) == 8 && grow(5, 6) == 10
    && grow(6, 7) == 12 && grow(7, 8) == 14 && grow(8, 9) == 16 && grow(8, 10) == 16
    && grow(9, 10) == 18 && grow(10, 11) == 20 && grow(10, 13) == 20 && grow(11, 12) == 22
    && grow(12, 13) == 24 && grow(12, 16) == 24 && grow(13, 14) == 26 && grow(14, 15) == 28
    && grow(14, 19) == 28 && grow(15, 16) == 30 && grow(16, 17) == 32 && grow(16, 18) == 32
    && grow(16, 22) == 32 && grow(18, 19) == 39 && grow(18, 25) == 39 && grow(20, 21) == 43
    && grow(20, 24) == 43 && grow(20, 28) == 43 && grow(22, 23) == 47 && grow(22, 31) == 47
    && grow(24, 25) == 55 && grow(24, 30) == 55 && grow(24, 34) == 55 && grow(26, 27) == 55
  }

  predicate Grows2(grow: Growth) {
    && grow(26, 37) == 55 && grow(28, 29) == 63 && grow(28, 36) == 63 && grow(28, 40) == 63
    && grow(30, 31) == 63 && grow(30, 43) == 63 && grow(32, 33) == 71 && grow(32, 40) == 71
    && grow(32, 42) == 71 && grow(32, 46) == 71 && grow(35, 36) == 71 && grow(35, 97) == 111
    && grow(39, 40) == 79 && grow(39, 48) == 79 && grow(39, 49) == 79 && grow(39, 52) == 79
    && grow(39, 106) == 111 && grow(39, 109) == 111 && grow(43, 44) == 87 && grow(43, 54) == 87
    && grow(43, 55) == 87 && grow(43, 58) == 87 && grow(43, 118) == 127 && grow(43, 121) == 127
    && grow(47, 48) == 95 && grow(47, 60) == 95 && grow(47, 61) == 95 && grow(47, 64) == 95
    && grow(47, 130) == 143 && grow(47, 133) == 143 && grow(55, 66) == 111 && grow(55, 67) == 111
    && grow(55, 70) == 111 && grow(55, 72) == 111 && grow(55, 73) == 111 && grow(55, 76) == 111
    && grow(55, 142) == 143 && grow(55, 145) == 167 && grow(55, 148) == 167 && grow(63, 78) == 127
  }

  predicate Grows3(grow: Growth) {
    && grow(63, 79) == 127 && grow(63, 82) == 127 && grow(63, 84) == 127 && grow(63, 85) == 127
    && grow(63, 88) == 127 && grow(71, 72) == 143 && grow(71, 75) == 143 && grow(71, 90) == 143
    && grow(71, 91) == 143 && grow(71, 94) == 143 && grow(71, 100) == 143 && grow(71, 103) == 143
    && grow(79, 80) == 167 && grow(79, 96) == 167 && grow(79, 102) == 167 && grow(79, 112) == 167
    && grow(79, 115) == 167 && grow(87, 88) == 191 && grow(87, 98) == 191 && grow(87, 108) == 191
    && grow(87, 114) == 191 && grow(87, 124) == 191 && grow(87, 127) == 191 && grow(95, 98) == 191
    && grow(95, 120) == 191 && grow(95, 126) == 191 && grow(95, 136) == 191 && grow(95, 139) == 191
    && grow(111, 118) == 255 && grow(111, 126) == 255 && grow(111, 132) == 255 && grow(111, 138) == 255
    && grow(111, 144) == 255 && grow(111, 150) == 255 && grow(111, 160) == 255 && grow(111, 192) == 255
    && grow(111, 210) == 255 && grow(111, 216) == 255 && grow(127, 128) == 255 && grow(127, 138) == 255
  }

  predicate Grows4(grow: Growth) {
    && grow(127, 154) == 255 && grow(127, 156) == 255 && grow(127, 162) == 255 && grow(127, 168) == 255
    && grow(127, 174) == 255 && grow(127, 234) == 255 && grow(127, 240) == 255 && grow(143, 144) == 303
    && grow(143, 148) == 303 && grow(143, 150) == 303 && grow(143, 154) == 303 && grow(143, 180) == 303
    && grow(143, 182) == 303 && grow(143, 186) == 303 && grow(143, 198) == 303 && grow(143, 204) == 303
    && grow(143, 258) == 303 && grow(143, 264) == 303 && grow(167, 168) == 335 && grow(167, 210) == 335
    && grow(167, 222) == 335 && grow(167, 228) == 335 && grow(167, 235) == 335 && grow(167, 288) == 335
    && grow(167, 294) == 335 && grow(191, 198) == 383 && grow(191, 201) == 383 && grow(191, 208) == 383
    && grow(191, 220) == 383 && grow(191, 238) == 383 && grow(191, 246) == 383 && grow(191, 252) == 383
    && grow(191, 265) == 383 && grow(191, 270) == 383 && grow(191, 276) == 383 && grow(191, 280) == 383
    && grow(255, 258) == 511 && grow(255, 264) == 511 && grow(255, 268) == 511 && grow(255, 278) == 511
  }

  predicate Grows5(grow: Growth) {
    && grow(255, 285) == 511 && grow(255, 286) == 511 && grow(255, 288) == 511 && grow(255, 294) == 511
    && grow(255, 295) == 511 && grow(255, 318) == 511 && grow(255, 322) == 511 && grow(255, 325) == 511
    && grow(255, 340) == 511 && grow(255, 348) == 511 && grow(255, 355) == 511 && grow(255, 358) == 511
    && grow(255, 370) == 511 && grow(255, 388) == 511 && grow(255, 398) == 511 && grow(303, 304) == 591
    && grow(303, 306) == 591 && grow(303, 308) == 591 && grow(303, 328) == 591 && grow(303, 338) == 591
    && grow(303, 350) == 591 && grow(303, 428) == 591 && grow(303, 438) == 591 && grow(303, 468) == 591
    && grow(335, 348) == 639 && grow(335, 368) == 639 && grow(335, 378) == 639 && grow(335, 478) == 639
    && grow(335, 488) == 639 && grow(383, 390) == 679 && grow(383, 408) == 679 && grow(383, 411) == 679
    && grow(383, 418) == 679 && grow(383, 448) == 679 && grow(383, 458) == 679
  }

  /** Part k of the values. */
  predicate Grows(grow: Growth, k: nat) {
    match k
    case 0 => Grows0(grow)
    case 1 => Grows1(grow)
    case 2 => Grows2(grow)
    case 3 => Grows3(grow)
    case 4 => Grows4(grow)
    case 5 => Grows5(grow)
    case _ => true
  }

  ghost predicate GrowsAsGo(grow: Growth) {
    forall k: nat :: Grows(grow, k)
  }

  lemma GoGrows0()
    ensures Grows0(GoGrow)
  {
  }

  lemma GoGrows1()
    ensures Grows1(GoGrow)
  {
  }

  lemma GoGrows2()
    ensures Grows2(GoGrow)
  {
  }

  lemma GoGrows3()
    ensures Grows3(GoGrow)
  {
  }

  lemma GoGrows4()
    ensures Grows4(GoGrow)
  {
  }

  lemma GoGrows5()
    ensures Grows5(GoGrow)
  {
  }

  lemma GoGrowsAsGo()
    ensures GrowsAsGo(GoGrow)
  {
    forall k: nat ensures Grows(GoGrow, k) {
      match k
      case 0 => GoGrows0();
      case 1 => GoGrows1();
      case 2 => GoGrows2();
      case 3 => GoGrows3();
      case 4 => GoGrows4();
      case 5 => GoGrows5();
      case _ =>
    }
  }

  lemma AllParts(grow: Growth)
    requires GrowsAsGo(grow)
    ensures Grows0(grow) && Grows1(grow) && Grows2(grow) && Grows3(grow) && Grows4(grow) && Grows5(grow)
  {
    assert Grows(grow, 0) && Grows(grow, 1) && Grows(grow, 2) && Grows(grow, 3) && Grows(grow, 4) && Grows(grow, 5);
  }

  // ---- The table ----

  lemma {:induction false} NoneSent(n: nat, to: nat, cap: nat, grow: Growth)
    requires n <= to <= 148 && 2 * to <= cap && IsTabled(0, to, 2 * to, 0, cap, grow)
    requires forall m :: n <= m < to ==> ((1 <= m && 4 * m + 1 <= cap) <==> IsRoomy(0, m))
    ensures IsTabled(0, n, 2 * n, 0, cap, grow)
    decreases 148 - n
  {
    if n < to {
      NoneSent(n + 1, to, cap, grow);
      assert Grown(cap, 2 * n, 0, grow) == cap;
    }
  }

  lemma SentNone(grow: Growth)
    requires GrowsAsGo(grow)
    ensures IsTabled(0, 0, 0, 0, 0, grow)
  {
    AllParts(grow);
    NoneSent(72, 148, 303, grow);
    NoneSent(36, 71, 143, grow);
    NoneSent(17, 35, 71, grow);
    NoneSent(9, 16, 32, grow);
    NoneSent(5, 8, 16, grow);
  }

  lemma Sent1(grow: Growth)
    requires GrowsAsGo(grow)
    ensures IsTabled(1, 0, 0, 0, 0, grow)
  {
    AllParts(grow);
    assert IsTabled(1, 21, 273, 21, 303, grow);
    assert IsTabled(1, 18, 207, 18, 303, grow);
    assert IsTabled(1, 15, 150, 15, 303, grow);
    assert IsTabled(1, 12, 102, 12, 143, grow);
    assert IsTabled(1, 9, 63, 9, 71, grow);
    assert IsTabled(1, 6, 33, 6, 71, grow);
    assert IsTabled(1, 3, 12, 3, 16, grow);
  }

  lemma Sent2(grow: Growth)
    requires GrowsAsGo(grow)
    ensures IsTabled(2, 0, 0, 0, 0, grow)
  {
    AllParts(grow);
    assert IsTabled(2, 15, 270, 30, 303, grow);
    assert IsTabled(2, 12, 180, 24, 303, grow);
    assert IsTabled(2, 9, 108, 18, 143, grow);
    assert IsTabled(2, 6, 54, 12, 71, grow);
    assert IsTabled(2, 3, 18, 6, 32, grow);
  }

  lemma Sent3(grow: Growth)
    requires GrowsAsGo(grow)
    ensures IsTabled(3, 0, 0, 0, 0, grow)
  {
    AllParts(grow);
    assert IsTabled(3, 12, 258, 36, 383, grow);
    assert IsTabled(3, 9, 153, 27, 191, grow);
    assert IsTabled(3, 6, 75, 18, 87, grow);
    assert IsTabled(3, 3, 24, 9, 43, grow);
  }

  lemma Sent4(grow: Growth)
    requires GrowsAsGo(grow)
    ensures IsTabled(4, 0, 0, 0, 0, grow)
  {
    AllParts(grow);
    assert IsTabled(4, 9, 198, 36, 255, grow);
    assert IsTabled(4, 6, 96, 24, 111, grow);
    assert IsTabled(4, 3, 30, 12, 55, grow);
  }

  lemma Sent5(grow: Growth)
    requires GrowsAsGo(grow)
    ensures IsTabled(5, 0, 0, 0, 0, grow)
  {
    AllParts(grow);
    assert IsTabled(5, 9, 243, 45, 255, grow);
    assert IsTabled(5, 6, 117, 30, 127, grow);
    assert IsTabled(5, 3, 36, 15, 63, grow);
  }

  lemma Sent6(grow: Growth)
    requires GrowsAsGo(grow)
    ensures IsTabled(6, 0, 0, 0, 0, grow)
  {
    AllParts(grow);
    assert IsTabled(6, 9, 288, 54, 303, grow);
    assert IsTabled(6, 6, 138, 36, 143, grow);
    assert IsTabled(6, 3, 42, 18, 71, grow);
  }

  lemma Sent7(grow: Growth)
    requires GrowsAsGo(grow)
    ensures IsTabled(7, 0, 0, 0, 0, grow)
  {
    AllParts(grow);
    assert IsTabled(7, 6, 159, 42, 167, grow);
    assert IsTabled(7, 3, 48, 21, 79, grow);
  }

  lemma Sent8(grow: Growth)
    requires GrowsAsGo(grow)
    ensures IsTabled(8, 0, 0, 0, 0, grow)
  {
    AllParts(grow);
    assert IsTabled(8, 6, 180, 48, 191, grow);
    assert IsTabled(8, 3, 54, 24, 87, grow);
  }

  lemma Sent9(grow: Growth)
    requires GrowsAsGo(grow)
    ensures IsTabled(9, 0, 0, 0, 0, grow)
  {
    AllParts(grow);
    assert IsTabled(9, 6, 201, 54, 383, grow);
    assert IsTabled(9, 3, 60, 27, 95, grow);
  }

  lemma Sent10(grow: Growth)
    requires GrowsAsGo(grow)
    ensures IsTabled(10, 0, 0, 0, 0, grow)
  {
    AllParts(grow);
    assert IsTabled(10, 6, 222, 60, 255, grow);
    assert IsTabled(10, 3, 66, 30, 111, grow);
  }

  lemma Sent11To14(sent: nat, grow: Growth)
    requires 11 <= sent <= 14 && GrowsAsGo(grow)
    ensures IsTabled(sent, 0, 0, 0, 0, grow)
  {
    AllParts(grow);
    assert IsTabled(11, 0, 0, 0, 0, grow)
        && IsTabled(12, 0, 0, 0, 0, grow)
        && IsTabled(13, 0, 0, 0, 0, grow)
        && IsTabled(14, 0, 0, 0, 0, grow);
  }

  lemma Sent15To18(sent: nat, grow: Growth)
    requires 15 <= sent <= 18 && GrowsAsGo(grow)
    ensures IsTabled(sent, 0, 0, 0, 0, grow)
  {
    AllParts(grow);
    assert IsTabled(15, 0, 0, 0, 0, grow)
        && IsTabled(16, 0, 0, 0, 0, grow)
        && IsTabled(17, 0, 0, 0, 0, grow)
        && IsTabled(18, 0, 0, 0, 0, grow);
  }

  lemma Sent19To22(sent: nat, grow: Growth)
    requires 19 <= sent <= 22 && GrowsAsGo(grow)
    ensures IsTabled(sent, 0, 0, 0, 0, grow)
  {
    AllParts(grow);
    assert IsTabled(19, 0, 0, 0, 0, grow)
        && IsTabled(20, 0, 0, 0, 0, grow)
        && IsTabled(21, 0, 0, 0, 0, grow)
        && IsTabled(22, 0, 0, 0, 0, grow);
  }

  lemma Sent23To26(sent: nat, grow: Growth)
    requires 23 <= sent <= 26 && GrowsAsGo(grow)
    ensures IsTabled(sent, 0, 0, 0, 0, grow)
  {
    AllParts(grow);
    assert IsTabled(23, 0, 0, 0, 0, grow)
        && IsTabled(24, 0, 0, 0, 0, grow)
        && IsTabled(25, 0, 0, 0, 0, grow)
        && IsTabled(26, 0, 0, 0, 0, grow);
  }

  lemma Sent27To30(sent: nat, grow: Growth)
    requires 27 <= sent <= 30 && GrowsAsGo(grow)
    ensures IsTabled(sent, 0, 0, 0, 0, grow)
  {
    AllParts(grow);
    assert IsTabled(27, 0, 0, 0, 0, grow)
        && IsTabled(28, 0, 0, 0, 0, grow)
        && IsTabled(29, 0, 0, 0, 0, grow)
        && IsTabled(30, 0, 0, 0, 0, grow);
  }

  lemma Sent31To35(sent: nat, grow: Growth)
    requires 31 <= sent <= 35 && GrowsAsGo(grow)
    ensures IsTabled(sent, 0, 0, 0, 0, grow)
  {
    AllParts(grow);
    assert IsTabled(31, 0, 0, 0, 0, grow)
        && IsTabled(32, 0, 0, 0, 0, grow)
        && IsTabled(33, 0, 0, 0, 0, grow)
        && IsTabled(34, 0, 0, 0, 0, grow)
        && IsTabled(35, 0, 0, 0, 0, grow);
  }

  lemma Sent36To40(sent: nat, grow: Growth)
    requires 36 <= sent <= 40 && GrowsAsGo(grow)
    ensures IsTabled(sent, 0, 0, 0, 0, grow)
  {
    AllParts(grow);
    assert IsTabled(36, 0, 0, 0, 0, grow)
        && IsTabled(37, 0, 0, 0, 0, grow)
        && IsTabled(38, 0, 0, 0, 0, grow)
        && IsTabled(39, 0, 0, 0, 0, grow)
        && IsTabled(40, 0, 0, 0, 0, grow);
  }

  lemma Sent41To44(sent: nat, grow: Growth)
    requires 41 <= sent <= 44 && GrowsAsGo(grow)
    ensures IsTabled(sent, 0, 0, 0, 0, grow)
  {
    AllParts(grow);
    assert IsTabled(41, 0, 0, 0, 0, grow)
        && IsTabled(42, 0, 0, 0, 0, grow)
        && IsTabled(43, 0, 0, 0, 0, grow)
        && IsTabled(44, 0, 0, 0, 0, grow);
  }

  lemma Sent45To48(sent: nat, grow: Growth)
    requires 45 <= sent <= 48 && GrowsAsGo(grow)
    ensures IsTabled(sent, 0, 0, 0, 0, grow)
  {
    AllParts(grow);
    assert IsTabled(45, 0, 0, 0, 0, grow)
        && IsTabled(46, 0, 0, 0, 0, grow)
        && IsTabled(47, 0, 0, 0, 0, grow)
        && IsTabled(48, 0, 0, 0, 0, grow);
  }

  /** Doubling and rounding add a fifth at most to what is needed or doubled. */
  ghost predicate GrowsByFifths(grow: Growth) {
    forall c: nat, m: nat :: c < m && c < THRESHOLD && 16 <= m <= 295 ==>
      m <= grow(c, m) && 5 * grow(c, m) <= 6 * (if m > 2 * c then m else 2 * c)
  }

  lemma GoGrowsByFifths()
    ensures GrowsByFifths(GoGrow)
  {
    forall c: nat, m: nat | c < m && c < THRESHOLD && 16 <= m <= 295
      ensures m <= GoGrow(c, m) && 5 * GoGrow(c, m) <= 6 * (if m > 2 * c then m else 2 * c)
    {
      RoundedUpByFifths(Wanted(c, m));
    }
  }

  lemma RoundedUpByFifths(n: nat)
    requires 16 <= n <= 2 * THRESHOLD
    ensures n <= RoundedUp(n) && 5 * RoundedUp(n) <= 6 * n
  {
  }

  lemma OneTurn(sent: nat, n: nat, len: nat, file: nat, cap: nat, grow: Growth)
    requires len <= 295 ==> ((1 <= len && 2 * len + 1 <= cap) <==> IsRoomy(sent, n))
    requires IsTabled(sent, n + 1, len + 2 + file + sent, file + sent, Grown(cap, len, file + sent, grow), grow)
    ensures IsTabled(sent, n, len, file, cap, grow)
  {
  }

  /** With 49 inputs or more, only one or two machines have a list that is short enough. */
  lemma ManySent(sent: nat, grow: Growth)
    requires sent >= 49 && GrowsByFifths(grow) && grow(0, 1) == 1 && grow(1, 2) == 2
    ensures IsTabled(sent, 0, 0, 0, 0, grow)
  {
    var one := Grown(0, 0, sent, grow);
    var two := Grown(one, 2 + sent, 2 * sent, grow);
    TwoMachines(sent, grow);
    ManyTurns(sent, one, two, Grown(two, 4 + 3 * sent, 3 * sent, grow), grow);
  }

  lemma ManyTurns(sent: nat, one: nat, two: nat, three: nat, grow: Growth)
    requires sent >= 49 && one == Grown(0, 0, sent, grow) && two == Grown(one, 2 + sent, 2 * sent, grow)
    requires three == Grown(two, 4 + 3 * sent, 3 * sent, grow)
    requires (2 + sent <= 295 ==> one < 2 * (2 + sent) + 1) && (4 + 3 * sent <= 295 ==> two < 2 * (4 + 3 * sent) + 1)
    ensures IsTabled(sent, 0, 0, 0, 0, grow)
  {
    OneTurn(sent, 2, 4 + 3 * sent, 2 * sent, two, grow);
    OneTurn(sent, 1, 2 + sent, sent, one, grow);
    OneTurn(sent, 0, 0, 0, 0, grow);
  }

  lemma TwoMachines(sent: nat, grow: Growth)
    requires sent >= 49 && GrowsByFifths(grow) && grow(0, 1) == 1 && grow(1, 2) == 2
    ensures var one := Grown(0, 0, sent, grow);
            (2 + sent <= 295 ==> one < 2 * (2 + sent) + 1)
            && (4 + 3 * sent <= 295 ==> Grown(one, 2 + sent, 2 * sent, grow) < 2 * (4 + 3 * sent) + 1)
  {
    var one := Grown(0, 0, sent, grow);
    assert one == grow(2, 2 + sent);
    if 4 + 3 * sent <= 295 {
      var a := NewCap(one, 2 + sent, 1, grow);
      var b := NewCap(a, 3 + sent, 1, grow);
      assert b <= 3 * (4 + sent);
    }
  }
  lemma FewTabled(sent: nat, grow: Growth)
    requires sent <= 10 && GrowsAsGo(grow)
    ensures IsTabled(sent, 0, 0, 0, 0, grow)
  {
    match sent
    case 0 => SentNone(grow);
    case 1 => Sent1(grow);
    case 2 => Sent2(grow);
    case 3 => Sent3(grow);
    case 4 => Sent4(grow);
    case 5 => Sent5(grow);
    case 6 => Sent6(grow);
    case 7 => Sent7(grow);
    case 8 => Sent8(grow);
    case 9 => Sent9(grow);
    case 10 => Sent10(grow);
  }

  lemma Tabled(sent: nat, grow: Growth)
    requires GrowsAsGo(grow) && GrowsByFifths(grow)
    ensures IsTabled(sent, 0, 0, 0, 0, grow)
  {
    if sent <= 10 {
      FewTabled(sent, grow);
    } else if sent <= 48 {
      MoreTabled(sent, grow);
    } else {
      assert Grows(grow, 0);
      ManySent(sent, grow);
    }
  }

  lemma MoreTabled(sent: nat, grow: Growth)
    requires 11 <= sent <= 48 && GrowsAsGo(grow)
    ensures IsTabled(sent, 0, 0, 0, 0, grow)
  {
    if sent <= 14 {
      Sent11To14(sent, grow);
    } else if sent <= 18 {
      Sent15To18(sent, grow);
    } else if sent <= 22 {
      Sent19To22(sent, grow);
    } else if sent <= 26 {
      Sent23To26(sent, grow);
    } else if sent <= 30 {
      Sent27To30(sent, grow);
    } else if sent <= 35 {
      Sent31To35(sent, grow);
    } else if sent <= 40 {
      Sent36To40(sent, grow);
    } else if sent <= 44 {
      Sent41To44(sent, grow);
    } else {
      Sent45To48(sent, grow);
    }
  }

  // ---- What the table says of clusters ----

  lemma {:induction false} LenFormula(sent: nat, n: nat)
    ensures FileLen(sent, n) == n * sent
    ensures 2 * VmLen(sent, n) == 4 * n + sent * (n * (n + 1))
  {
    if n > 0 {
      LenFormula(sent, n - 1);
      OneMore(n, sent);
      Triangle(sent, n);
    }
  }

  lemma RoomyIsShort(sent: nat, n: nat)
    requires IsRoomy(sent, n)
    ensures VmLen(sent, n) <= 295
  {
    LenFormula(sent, n);
  }

  lemma {:induction false} LenGrows(sent: nat, n: nat, m: nat)
    requires n <= m
    ensures VmLen(sent, n) <= VmLen(sent, m)
    decreases m
  {
    if n < m {
      LenGrows(sent, n, m - 1);
    }
  }

  lemma NextIsGrown(sent: nat, n: nat, grow: Growth)
    ensures VmCap(sent, grow, n + 1) == Grown(VmCap(sent, grow, n), VmLen(sent, n), FileLen(sent, n) + sent, grow)
  {
    ThreeAppends(VmCap(sent, grow, n), VmLen(sent, n), FileLen(sent, n + 1), grow);
  }

  lemma {:induction false} TableHolds(sent: nat, n: nat, m: nat, grow: Growth)
    requires n <= m && VmLen(sent, m) <= 295
    requires IsTabled(sent, n, VmLen(sent, n), FileLen(sent, n), VmCap(sent, grow, n), grow)
    ensures 1 <= VmLen(sent, m) && 2 * VmLen(sent, m) + 1 <= VmCap(sent, grow, m) <==> IsRoomy(sent, m)
    decreases if n < m then m - n else 0
  {
    LenGrows(sent, n, m);
    if n < m {
      NextIsGrown(sent, n, grow);
      TableHolds(sent, n + 1, m, grow);
    }
  }

  lemma RoomyExactly(sent: nat, n: nat, grow: Growth)
    requires GrowsAsGo(grow) && GrowsByFifths(grow) && VmLen(sent, n) <= 295
    ensures 1 <= VmLen(sent, n) && 2 * VmLen(sent, n) + 1 <= VmCap(sent, grow, n) <==> IsRoomy(sent, n)
  {
    Tabled(sent, grow);
    TableHolds(sent, 0, n, grow);
  }

  /** The exact condition under Go's policy: a cluster has room if and only if its
      numbers of inputs sent and of machines are in the table. */
  lemma GoRoomExactly(s: Site)
    ensures HasRoom(s, GoGrow) <==> IsK8s(s) && IsRoomy(Sent(s.inputs, |s.inputs|), |Machines(s)|)
  {
    var sent, n := Sent(s.inputs, |s.inputs|), |Machines(s)|;
    LengthsMatch(s.inputs, n);
    if VmLen(sent, n) <= 295 {
      GoGrowsAsGo();
      GoGrowsByFifths();
      RoomyExactly(sent, n, GoGrow);
    } else {
      GoRoomIsShort(s);
      if IsRoomy(sent, n) {
        RoomyIsShort(sent, n);
      }
    }
  }
}
