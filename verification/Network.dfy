/** Addresses for the hosts of a network: "auto" hosts are numbered downwards from
    the end of the range by decrementing one shared address in place. */
module Network {
  import opened Units
  import opened RemoteCmd

  newtype Byte = x: int | 0 <= x < 256

  datatype StaticHost = StaticHost(name: string, ip: string)

  datatype UserNetwork = UserNetwork(domain: string, hosts: seq<StaticHost>)

  datatype Host = Host(fqdn: string, name: string, ipv4: string)

  /** A parsed range: an address in it and the length of its prefix, both for IPv4. */
  datatype Cidr = Cidr(address: nat, prefix: nat)

  const WIDTH: nat := 4
  const SPACE: nat := 0x1_0000_0000

  ghost predicate IsCidr(c: Cidr) {
    c.address < SPACE && c.prefix <= 8 * WIDTH
  }

  // ---- Numbers and bytes ----

  function Power(b: nat, e: nat): (r: nat)
    requires b > 0
    ensures r > 0
  {
    if e == 0 then 1 else b * Power(b, e - 1)
  }

  /** The big-endian value of an address. */
  function Value(s: seq<Byte>): nat {
    if |s| == 0 then 0 else 256 * Value(s[..|s| - 1]) + s[|s| - 1] as nat
  }

  function ToBytes(n: nat, len: nat): (s: seq<Byte>)
    ensures |s| == len
  {
    if len == 0 then [] else ToBytes(n / 256, len - 1) + [(n % 256) as Byte]
  }

  lemma {:induction false} ValueFits(s: seq<Byte>)
    ensures Value(s) < Power(256, |s|)
  {
    if |s| > 0 {
      ValueFits(s[..|s| - 1]);
    }
  }

  /** Bytes and value determine each other. */
  lemma {:induction false} BytesOfValue(s: seq<Byte>)
    ensures ToBytes(Value(s), |s|) == s
  {
    if |s| > 0 {
      BytesOfValue(s[..|s| - 1]);
      assert Value(s) / 256 == Value(s[..|s| - 1]) && Value(s) % 256 == s[|s| - 1] as nat;
    }
  }

  lemma {:induction false} ValueOfBytes(n: nat, len: nat)
    requires n < Power(256, len)
    ensures Value(ToBytes(n, len)) == n
  {
    if len > 0 {
      assert n / 256 < Power(256, len - 1);
      ValueOfBytes(n / 256, len - 1);
    }
  }

  // ---- Decrementing an address in place ----

  /** s with one taken from its last byte, borrowing from the bytes before it. */
  function Borrowed(s: seq<Byte>): (r: seq<Byte>)
    ensures |r| == |s|
  {
    if |s| == 0 then []
    else if s[|s| - 1] == 0 then Borrowed(s[..|s| - 1]) + [255]
    else s[..|s| - 1] + [s[|s| - 1] - 1]
  }

  /** The number before n, wrapping around below zero. */
  function Before(n: nat, space: nat): nat
    requires space > 0
  {
    if n == 0 then space - 1 else n - 1
  }

  lemma {:induction false} BorrowedIsBefore(s: seq<Byte>)
    ensures Value(Borrowed(s)) == Before(Value(s), Power(256, |s|))
  {
    if |s| > 0 {
      var front, r := s[..|s| - 1], Borrowed(s);
      BorrowedIsBefore(front);
      assert r[..|s| - 1] == if s[|s| - 1] == 0 then Borrowed(front) else front;
    }
  }

  /** The borrow runs through trailing zeros. */
  lemma {:induction false} BorrowPast(s: seq<Byte>, i: nat)
    requires i <= |s| && forall j :: i <= j < |s| ==> s[j] == 0
    ensures Borrowed(s)[..i] == Borrowed(s[..i]) && forall j :: i <= j < |s| ==> Borrowed(s)[j] == 255
  {
    if i == |s| {
      assert s[..i] == s;
    } else {
      var front := s[..|s| - 1];
      BorrowPast(front, i);
      assert front[..i] == s[..i];
      assert Borrowed(s) == Borrowed(front) + [255];
    }
  }

  method IPDecr(ip: array<Byte>)
    modifies ip
    ensures ip[..] == Borrowed(old(ip[..]))
    ensures Value(ip[..]) == Before(Value(old(ip[..])), Power(256, ip.Length))
  {
    ghost var was := ip[..];
    BorrowedIsBefore(was);
    var i := ip.Length;
    while i > 0
      invariant 0 <= i <= ip.Length
      invariant ip[..i] == was[..i] && forall j :: i <= j < ip.Length ==> was[j] == 0 && ip[j] == 255
    {
      i := i - 1;
      assert ip[i] == was[i];
      if ip[i] == 0 {
        ip[i] := 255;
      } else {
        BorrowPast(was, i + 1);
        assert was[..i + 1][..i] == was[..i];
        assert Borrowed(was[..i + 1]) == was[..i] + [was[i] - 1];
        ip[i] := ip[i] - 1;
        assert ip[..i + 1] == Borrowed(was)[..i + 1];
        return;
      }
    }
    BorrowPast(was, 0);
  }

  // ---- Text of an address ----

  function Digit(n: int): char
    requires 0 <= n < 10
  {
    ('0' as int + n) as char
  }

  function Decimal(b: Byte): string {
    var n := b as int;
    if n < 10 then [Digit(n)]
    else if n < 100 then [Digit(n / 10), Digit(n % 10)]
    else [Digit(n / 100), Digit(n / 10 % 10), Digit(n % 10)]
  }

  /** The number a string of digits stands for. */
  function Parsed(s: string): int {
    if |s| == 0 then 0 else 10 * Parsed(s[..|s| - 1]) + (s[|s| - 1] as int - '0' as int)
  }

  /** Dotted decimal. */
  function Dotted(s: seq<Byte>): string
    requires |s| == WIDTH
  {
    Decimal(s[0]) + ['.'] + (Decimal(s[1]) + ['.'] + (Decimal(s[2]) + ['.'] + Decimal(s[3])))
  }

  lemma DecimalParses(b: Byte)
    ensures Parsed(Decimal(b)) == b as int
  {
    var s, n := Decimal(b), b as int;
    if n >= 100 {
      assert s[..2] == [Digit(n / 100), Digit(n / 10 % 10)];
      assert s[..2][..1] == [Digit(n / 100)];
      assert Parsed([Digit(n / 100)]) == n / 100;
      assert Parsed(s[..2]) == 10 * (n / 100) + n / 10 % 10;
    } else if n >= 10 {
      assert s[..1] == [Digit(n / 10)];
      assert Parsed(s[..1]) == n / 10;
    }
  }

  lemma DecimalHasNoDot(b: Byte)
    ensures '.' !in Decimal(b)
  {
  }

  lemma DottedParts(s: seq<Byte>)
    requires |s| == WIDTH
    ensures Split(Dotted(s), '.') == [Decimal(s[0])] + ([Decimal(s[1])] + ([Decimal(s[2])] + [Decimal(s[3])]))
  {
    DecimalHasNoDot(s[0]);
    DecimalHasNoDot(s[1]);
    DecimalHasNoDot(s[2]);
    DecimalHasNoDot(s[3]);
    var d3 := Decimal(s[3]);
    var d2 := Decimal(s[2]) + ['.'] + d3;
    var d1 := Decimal(s[1]) + ['.'] + d2;
    SplitWhole(d3, '.');
    SplitAtFirst(Decimal(s[2]), '.', d3);
    SplitAtFirst(Decimal(s[1]), '.', d2);
    SplitAtFirst(Decimal(s[0]), '.', d1);
  }

  lemma DottedPart(s: seq<Byte>, i: nat)
    requires |s| == WIDTH && i < WIDTH
    ensures |Split(Dotted(s), '.')| == WIDTH && Split(Dotted(s), '.')[i] == Decimal(s[i])
  {
    DottedParts(s);
    assert Split(Dotted(s), '.') == [Decimal(s[0]), Decimal(s[1]), Decimal(s[2]), Decimal(s[3])];
  }

  /** Different addresses print differently. */
  lemma DottedInjective(s: seq<Byte>, t: seq<Byte>)
    requires |s| == |t| == WIDTH && Dotted(s) == Dotted(t)
    ensures s == t
  {
    forall i | 0 <= i < WIDTH ensures s[i] == t[i] {
      DottedPart(s, i);
      DottedPart(t, i);
      DecimalParses(s[i]);
      DecimalParses(t[i]);
    }
  }

  /** The text of an address has four parts, the numbers of its bytes in order, each
      without a leading zero. */
  lemma DottedReads(s: seq<Byte>, i: nat)
    requires |s| == WIDTH && i < WIDTH
    ensures |Split(Dotted(s), '.')| == 4
    ensures var part := Split(Dotted(s), '.')[i];
            && Parsed(part) == s[i] as int && 1 <= |part| <= 3 && (|part| > 1 ==> part[0] != '0')
            && forall c :: c in part ==> '0' <= c <= '9'
  {
    DottedPart(s, i);
    DecimalParses(s[i]);
  }

  /** The earlier bytes of an address weigh more. */
  lemma {:induction false} ValueConcat(a: seq<Byte>, b: seq<Byte>)
    ensures Value(a + b) == Value(a) * Power(256, |b|) + Value(b)
  {
    if |b| == 0 {
      assert a + b == a;
    } else {
      var front := b[..|b| - 1];
      assert (a + b)[..|a + b| - 1] == a + front;
      ValueConcat(a, front);
      Distribute(Value(a), Power(256, |front|), Value(front));
    }
  }

  lemma Distribute(a: nat, p: nat, v: nat)
    ensures 256 * (a * p + v) == a * (256 * p) + 256 * v
  {
  }

  // ---- The range ----

  function BlockSize(c: Cidr): (r: nat)
    requires c.prefix <= 8 * WIDTH
    ensures r > 0
  {
    Power(2, 8 * WIDTH - c.prefix)
  }

  /** The first address of the range. */
  function First(c: Cidr): nat
    requires c.prefix <= 8 * WIDTH
  {
    c.address - c.address % BlockSize(c)
  }

  /** The last address of the range, its broadcast address. */
  function Last(c: Cidr): nat
    requires c.prefix <= 8 * WIDTH
  {
    First(c) + BlockSize(c) - 1
  }

  predicate IsAuto(h: StaticHost) {
    h.ip == "auto"
  }

  /** The auto hosts among the first n. */
  function AutoCount(hosts: seq<StaticHost>, n: nat): nat
    requires n <= |hosts|
  {
    if n == 0 then 0 else AutoCount(hosts, n - 1) + if IsAuto(hosts[n - 1]) then 1 else 0
  }

  /** The address k places below n, wrapping around below zero. */
  function Below(n: nat, k: nat): nat {
    (n - k) % SPACE
  }

  /** Host i of the result: an "auto" host that is the k-th such gets the address k
      places below the last one of the range, any other keeps what it asked for. */
  ghost predicate IsAssigned(un: UserNetwork, c: Cidr, host: Host, i: nat)
    requires i < |un.hosts| && IsCidr(c)
  {
    var h := un.hosts[i];
    && host.name == h.name && host.fqdn == h.name + "." + un.domain
    && host.ipv4 == if IsAuto(h) then Dotted(ToBytes(Below(Last(c), AutoCount(un.hosts, i + 1)), WIDTH)) else h.ip
  }

  lemma SpaceIsPower()
    ensures Power(256, WIDTH) == SPACE && Power(2, 8 * WIDTH) == SPACE
  {
    assert Power(256, 2) == 0x1_0000;
    assert Power(2, 8) == 256;
    assert Power(2, 16) == 256 * Power(2, 8);
    assert Power(2, 24) == 256 * Power(2, 16);
    assert Power(2, 32) == 256 * Power(2, 24);
  }

  lemma {:induction false} PowerSplits(b: nat, m: nat, n: nat)
    requires b > 0
    ensures Power(b, m + n) == Power(b, m) * Power(b, n)
  {
    if m > 0 {
      PowerSplits(b, m - 1, n);
      assert b * (Power(b, m - 1) * Power(b, n)) == (b * Power(b, m - 1)) * Power(b, n);
    }
  }

  lemma Scaled(a: nat, b: nat, k: nat)
    ensures a <= b ==> a * k <= b * k
  {
  }

  /** The block around a lies in a space of whole blocks. */
  lemma BlockFits(a: nat, size: nat, blocks: nat)
    requires size > 0 && a < blocks * size
    ensures a - a % size + size <= blocks * size
  {
    var q := a / size;
    Scaled(blocks, q, size);
    Scaled(q + 1, blocks, size);
    assert a == q * size + a % size;
    assert (q + 1) * size == q * size + size;
  }

  /** The range lies in the address space. */
  lemma RangeFits(c: Cidr)
    requires IsCidr(c)
    ensures First(c) <= c.address <= Last(c) < SPACE
  {
    SpaceIsPower();
    PowerSplits(2, c.prefix, 8 * WIDTH - c.prefix);
    BlockFits(c.address, BlockSize(c), Power(2, c.prefix));
  }

  /** The range holds exactly the addresses that share the first `prefix` bits of its own. */
  lemma RangeIs(c: Cidr, n: nat)
    requires IsCidr(c)
    ensures First(c) <= n <= Last(c) <==> n / Power(2, 32 - c.prefix) == c.address / Power(2, 32 - c.prefix)
  {
    SameBlock(c.address, n, Power(2, 32 - c.prefix));
  }

  lemma SameBlock(a: nat, n: nat, size: nat)
    requires size > 0
    ensures a - a % size <= n <= a - a % size + size - 1 <==> n / size == a / size
  {
    var q, p := a / size, n / size;
    assert a == q * size + a % size && n == p * size + n % size;
    if p < q {
      Scaled(p + 1, q, size);
    } else if q < p {
      Scaled(q + 1, p, size);
    }
  }

  lemma BelowSteps(n: nat, k: nat)
    ensures Below(n, k + 1) == Before(Below(n, k), SPACE)
  {
  }

  /** ToNetwork; parsed is what parsing the range gave. A host with an address of its
      own keeps it; an "auto" host that is the k-th such gets the last address less k. */
  method ToNetwork(un: UserNetwork, parsed: Option<Cidr>) returns (r: Option<seq<Host>>)
    requires parsed.Some? ==> IsCidr(parsed.value)
    ensures parsed.None? <==> r.None?
    ensures r.Some? ==> |r.value| == |un.hosts|
    ensures r.Some? ==> forall i :: 0 <= i < |un.hosts| ==> IsAssigned(un, parsed.value, r.value[i], i)
    ensures r.Some? ==> forall i :: 0 <= i < |un.hosts| ==>
              && r.value[i].name == un.hosts[i].name && r.value[i].fqdn == un.hosts[i].name + "." + un.domain
              && (un.hosts[i].ip != "auto" ==> r.value[i].ipv4 == un.hosts[i].ip)
              && (un.hosts[i].ip == "auto" ==> r.value[i].ipv4 == AutoText(parsed.value, |AutosUpTo(un.hosts, i)|))
  {
    if parsed.None? {
      return None;
    }
    var hosts := AssignHosts(un, parsed.value);
    forall i | 0 <= i < |un.hosts| { AssignedIs(un, parsed.value, hosts[i], i); }
    return Some(hosts);
  }

  lemma AssignedIs(un: UserNetwork, c: Cidr, host: Host, i: nat)
    requires i < |un.hosts| && IsCidr(c) && IsAssigned(un, c, host, i)
    ensures host.name == un.hosts[i].name && host.fqdn == un.hosts[i].name + "." + un.domain
    ensures un.hosts[i].ip != "auto" ==> host.ipv4 == un.hosts[i].ip
    ensures un.hosts[i].ip == "auto" ==> host.ipv4 == AutoText(c, |AutosUpTo(un.hosts, i)|)
  {
    AutoCountIs(un.hosts, i);
  }

  /** The text of the address k places below the last one of the range. */
  function AutoText(c: Cidr, k: nat): string
    requires IsCidr(c)
  {
    Dotted(ToBytes(Below(Last(c), k), WIDTH))
  }

  /** What that text is; it is an address of the range only while k is small enough. */
  lemma AutoTextIs(c: Cidr, k: nat)
    requires IsCidr(c)
    ensures AutoText(c, k) == Dotted(ToBytes((Last(c) - k) % SPACE, WIDTH))
    ensures Value(ToBytes((Last(c) - k) % SPACE, WIDTH)) == (Last(c) - k) % SPACE
    ensures k <= Last(c) ==> (Last(c) - k) % SPACE == Last(c) - k
  {
    RangeFits(c);
    SpaceIsPower();
    ValueOfBytes((Last(c) - k) % SPACE, WIDTH);
  }

  /** The positions up to i whose host asks for "auto". */
  function AutosUpTo(hosts: seq<StaticHost>, i: nat): (r: set<nat>)
    ensures forall j: nat :: j in r <==> j <= i && j < |hosts| && hosts[j].ip == "auto"
  {
    set j: nat | j <= i && j < |hosts| && hosts[j].ip == "auto"
  }

  lemma {:induction false} AutoCountIs(hosts: seq<StaticHost>, i: nat)
    requires i < |hosts|
    ensures AutoCount(hosts, i + 1) == |AutosUpTo(hosts, i)|
  {
    var own: set<nat> := if hosts[i].ip == "auto" then {i} else {};
    if i == 0 {
      assert AutosUpTo(hosts, 0) == own && AutoCount(hosts, 0) == 0;
    } else {
      AutoCountIs(hosts, i - 1);
      assert AutosUpTo(hosts, i) == AutosUpTo(hosts, i - 1) + own;
    }
  }

  /** The loop of ToNetwork. All three names of the address denote one array. */
  method AssignHosts(un: UserNetwork, c: Cidr) returns (hosts: seq<Host>)
    requires IsCidr(c)
    ensures |hosts| == |un.hosts| && forall i :: 0 <= i < |hosts| ==> IsAssigned(un, c, hosts[i], i)
  {
    var endIp := EndOf(c);
    var autoIp := endIp;
    hosts := [];
    for i := 0 to |un.hosts|
      invariant autoIp == endIp && fresh(endIp) && endIp.Length == WIDTH
      invariant Value(endIp[..]) == Below(Last(c), AutoCount(un.hosts, i))
      invariant |hosts| == i && forall j :: 0 <= j < i ==> IsAssigned(un, c, hosts[j], j)
    {
      var h := un.hosts[i];
      if h.ip == "auto" {
        SpaceIsPower();
        BelowSteps(Last(c), AutoCount(un.hosts, i));
        var thisIp := autoIp;
        IPDecr(autoIp);
        autoIp := thisIp;
        BytesOfValue(thisIp[..]);
        hosts := hosts + [Host(h.name + "." + un.domain, h.name, Dotted(thisIp[..]))];
      } else {
        hosts := hosts + [Host(h.name + "." + un.domain, h.name, h.ip)];
      }
    }
  }

  /** The bytes of the last address of the range, in an array of their own. */
  method EndOf(c: Cidr) returns (ip: array<Byte>)
    requires IsCidr(c)
    ensures fresh(ip) && ip.Length == WIDTH && Value(ip[..]) == Last(c) == Below(Last(c), 0)
  {
    RangeFits(c);
    SpaceIsPower();
    ValueOfBytes(Last(c), WIDTH);
    var bytes := ToBytes(Last(c), WIDTH);
    ip := new Byte[WIDTH](i requires 0 <= i < WIDTH => bytes[i]);
    assert ip[..] == bytes;
  }

  lemma {:induction false} AutoCountGrows(hosts: seq<StaticHost>, i: nat, j: nat)
    requires i <= j <= |hosts|
    ensures AutoCount(hosts, i) <= AutoCount(hosts, j)
    decreases j
  {
    if i < j {
      AutoCountGrows(hosts, i, j - 1);
    }
  }

  lemma AutoCountsDiffer(hosts: seq<StaticHost>, i: nat, j: nat)
    requires i < j < |hosts| && IsAuto(hosts[i]) && IsAuto(hosts[j])
    ensures 0 < AutoCount(hosts, i + 1) < AutoCount(hosts, j + 1) <= AutoCount(hosts, |hosts|)
  {
    AutoCountGrows(hosts, i + 1, j);
    AutoCountGrows(hosts, j + 1, |hosts|);
  }

  lemma DifferentText(m: nat, n: nat)
    requires m < SPACE && n < SPACE && m != n
    ensures Dotted(ToBytes(m, WIDTH)) != Dotted(ToBytes(n, WIDTH))
  {
    SpaceIsPower();
    ValueOfBytes(m, WIDTH);
    ValueOfBytes(n, WIDTH);
    if Dotted(ToBytes(m, WIDTH)) == Dotted(ToBytes(n, WIDTH)) {
      DottedInjective(ToBytes(m, WIDTH), ToBytes(n, WIDTH));
    }
  }

  /** Auto hosts have pairwise different addresses, as long as there are no more of
      them than addresses at all. */
  lemma AutoDistinct(un: UserNetwork, c: Cidr, hosts: seq<Host>, i: nat, j: nat)
    requires IsCidr(c) && |hosts| == |un.hosts| && i < j < |hosts|
    requires IsAuto(un.hosts[i]) && IsAuto(un.hosts[j]) && AutoCount(un.hosts, |un.hosts|) <= SPACE
    requires IsAssigned(un, c, hosts[i], i) && IsAssigned(un, c, hosts[j], j)
    ensures hosts[i].ipv4 != hosts[j].ipv4
  {
    var a, b := AutoCount(un.hosts, i + 1), AutoCount(un.hosts, j + 1);
    AutoCountsDiffer(un.hosts, i, j);
    RangeFits(c);
    BelowDiffers(Last(c), a, b);
    DifferentText(Below(Last(c), a), Below(Last(c), b));
  }

  lemma BelowDiffers(n: nat, a: nat, b: nat)
    requires n < SPACE && 0 < a < b <= SPACE
    ensures Below(n, a) != Below(n, b)
  {
  }

  /** Exactly when every auto address lies strictly inside the range: there are none,
      or at most two fewer than the range has addresses. */
  lemma AutoInsideExactly(c: Cidr, autos: nat)
    requires IsCidr(c)
    ensures (forall k :: 1 <= k <= autos ==> First(c) < Below(Last(c), k) < Last(c)) <==>
              autos == 0 || autos + 2 <= BlockSize(c)
  {
    RangeFits(c);
    var size := BlockSize(c);
    if autos > 0 && autos + 2 > size {
      var k := if size == 1 then 1 else size - 1;
      assert 1 <= k <= autos && !(First(c) < Below(Last(c), k) < Last(c));
    }
  }

  /** Every count up to the last is that of some auto host. */
  lemma {:induction false} AutoHostOf(hosts: seq<StaticHost>, n: nat, k: nat) returns (i: nat)
    requires n <= |hosts| && 1 <= k <= AutoCount(hosts, n)
    ensures i < n && IsAuto(hosts[i]) && AutoCount(hosts, i + 1) == k
  {
    if AutoCount(hosts, n - 1) < k {
      i := n - 1;
    } else {
      i := AutoHostOf(hosts, n - 1, k);
    }
  }

  /** The text is that of an address strictly inside the range. */
  ghost predicate IsInside(c: Cidr, text: string)
    requires IsCidr(c)
  {
    exists a: nat :: First(c) < a < Last(c) && text == Dotted(ToBytes(a, WIDTH))
  }

  lemma InsideByNumber(c: Cidr, n: nat)
    requires IsCidr(c) && n < SPACE
    ensures IsInside(c, Dotted(ToBytes(n, WIDTH))) <==> First(c) < n < Last(c)
  {
    RangeFits(c);
    if IsInside(c, Dotted(ToBytes(n, WIDTH))) {
      var a: nat :| First(c) < a < Last(c) && Dotted(ToBytes(n, WIDTH)) == Dotted(ToBytes(a, WIDTH));
      if a != n {
        DifferentText(a, n);
      }
    }
  }

  /** Every auto host of a result gets an address strictly inside the range if and
      only if they are at most two fewer than its addresses, or none. */
  lemma AutoHostsInsideExactly(un: UserNetwork, c: Cidr, hosts: seq<Host>)
    requires IsCidr(c) && |hosts| == |un.hosts| && forall i :: 0 <= i < |hosts| ==> IsAssigned(un, c, hosts[i], i)
    ensures var autos := AutoCount(un.hosts, |un.hosts|);
            (forall i :: 0 <= i < |hosts| && IsAuto(un.hosts[i]) ==> IsInside(c, hosts[i].ipv4)) <==>
              autos == 0 || autos + 2 <= BlockSize(c)
  {
    var autos := AutoCount(un.hosts, |un.hosts|);
    AutoInsideExactly(c, autos);
    forall i | 0 <= i < |hosts| && IsAuto(un.hosts[i])
      ensures 1 <= AutoCount(un.hosts, i + 1) <= autos
      ensures IsInside(c, hosts[i].ipv4) <==> First(c) < Below(Last(c), AutoCount(un.hosts, i + 1)) < Last(c)
    {
      AutoCountGrows(un.hosts, i + 1, |un.hosts|);
      InsideByNumber(c, Below(Last(c), AutoCount(un.hosts, i + 1)));
    }
    if !(autos == 0 || autos + 2 <= BlockSize(c)) {
      var k :| 1 <= k <= autos && !(First(c) < Below(Last(c), k) < Last(c));
      var i := AutoHostOf(un.hosts, |un.hosts|, k);
      assert !IsInside(c, hosts[i].ipv4);
    }
  }

  lemma ExpectedTexts()
    ensures Dotted([10, 200, 200, 254]) == "10.200.200.254"
    ensures Dotted([10, 200, 200, 253]) == "10.200.200.253"
  {
  }

  /** The first two auto hosts of 10.200.200.1/24 get the addresses that the
      kube-vip manifest and the service hacks name. */
  lemma ExpectedAddresses()
    ensures var c := Cidr(0x0AC8C801, 24);
            && IsCidr(c)
            && ToBytes(Below(Last(c), 1), WIDTH) == [10, 200, 200, 254]
            && ToBytes(Below(Last(c), 2), WIDTH) == [10, 200, 200, 253]
  {
    var c := Cidr(0x0AC8C801, 24);
    assert Power(2, 4) == 16;
    assert BlockSize(c) == 256;
    assert Last(c) == 0x0AC8C8FF;
    BytesOfValue([10, 200, 200, 254]);
    BytesOfValue([10, 200, 200, 253]);
    assert [10, 200, 200][..2] == [10, 200] && [10, 200][..1] == [10];
    assert Value([10]) == 10 && Value([10, 200]) == 0x0AC8 && Value([10, 200, 200]) == 0x0AC8C8;
    assert [10, 200, 200, 254][..3] == [10, 200, 200] && [10, 200, 200, 253][..3] == [10, 200, 200];
  }
}
