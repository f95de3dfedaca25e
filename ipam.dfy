/** network/ipam.go: the bitmap allocator of container addresses.

    For every subnet, keyed by its canonical CIDR text, the allocator keeps a
    string with one character per address of the subnet: '1' taken, '0' free.
    `subnets` is the table the allocator works on; `stored` is the content of
    the allocation file (subnet.json) that `load` reads and `dump` writes. */
module Ipam {
  import opened Wrappers
  import opened Text

  type Byte = x: int | 0 <= x < 256

  /** An IPv4 network: four address octets and a prefix length. */
  datatype IPNet = IPNet(ip: seq<Byte>, prefix: int)

  predicate ValidNet(n: IPNet)
  {
    |n.ip| == 4 && 0 <= n.prefix <= 32
  }

  function Pow2(n: nat): (r: nat)
    ensures r >= 1
  {
    if n == 0 then 1 else 2 * Pow2(n - 1)
  }

  /** The address as a 32-bit number. */
  function ToInt(ip: seq<Byte>): nat
    requires |ip| == 4
  {
    ((ip[0] as int * 256 + ip[1] as int) * 256 + ip[2] as int) * 256 + ip[3] as int
  }

  /** How many of the low bits of octet `k` are host bits under `prefix`. */
  function HostBits(prefix: int, k: nat): (h: nat)
    ensures h <= 8
  {
    var h := 8 + 8 * k - prefix;
    if h < 0 then 0 else if h > 8 then 8 else h
  }

  /** `x` with its `h` low bits cleared: shifted right and back left. */
  function MaskLow(x: nat, h: nat): nat
  {
    if h == 0 then x else 2 * MaskLow(x / 2, h - 1)
  }

  /** An octet ANDed with the byte of the network mask that keeps all but its
      `h` low bits. */
  function MaskOctet(o: Byte, h: nat): (m: Byte)
    requires h <= 8
    ensures m <= o && o - m < Pow2(h)
  {
    MaskLowBounds(o, h);
    MaskLow(o, h)
  }

  /** `net.ParseCIDR(subnet.String())`: the same prefix, host bits cleared. */
  function Canonical(n: IPNet): (c: IPNet)
    requires ValidNet(n)
    ensures ValidNet(c) && c.prefix == n.prefix
  {
    IPNet([MaskOctet(n.ip[0], HostBits(n.prefix, 0)), MaskOctet(n.ip[1], HostBits(n.prefix, 1)),
           MaskOctet(n.ip[2], HostBits(n.prefix, 2)), MaskOctet(n.ip[3], HostBits(n.prefix, 3))],
          n.prefix)
  }

  /** `IPNet.String()`: dotted octets, '/', prefix length. */
  function CidrKey(n: IPNet): string
    requires ValidNet(n)
  {
    Join([Itoa(n.ip[0]), Itoa(n.ip[1]), Itoa(n.ip[2]), Itoa(n.ip[3])], ".") + "/" + Itoa(n.prefix)
  }

  /** The key a subnet is filed under. */
  function KeyOf(subnet: IPNet): string
    requires ValidNet(subnet)
  {
    CidrKey(Canonical(subnet))
  }

  /** The bitmap of a subnet seen for the first time: network and broadcast
      address taken, everything between free. */
  function InitialBitmap(prefix: int): (bm: string)
    requires 0 <= prefix < 32
    ensures |bm| == Pow2(32 - prefix) >= 2
    ensures bm[0] == '1' && bm[|bm| - 1] == '1'
    ensures forall i :: 0 < i < |bm| - 1 ==> bm[i] == '0'
  {
    "1" + Repeat('0', Pow2(32 - prefix) - 2) + "1"
  }

  /** Go's zero value for a missing map key. */
  function Lookup(table: map<string, string>, key: string): string
  {
    if key in table then table[key] else ""
  }

  /** The lowest index holding '0', if any. */
  function FirstFree(bm: string): (r: Option<nat>)
    ensures r.None? <==> '0' !in bm
    ensures r.Some? ==> r.value < |bm| && bm[r.value] == '0'
                        && forall j :: 0 <= j < r.value ==> bm[j] != '0'
  {
    if |bm| == 0 then None
    else if bm[0] == '0' then Some(0)
    else match FirstFree(bm[1..])
      case None => None
      case Some(c) => Some(c + 1)
  }

  /** The place value of octet `k`, 0 the highest: 2^(8*(3-k)). */
  function Weight(k: nat): nat
    requires k < 4
  {
    if k == 0 then 16777216 else if k == 1 then 65536 else if k == 2 then 256 else 1
  }

  /** Octet `k` of the offset `c`: `uint8(c >> ((3-k)*8))`. */
  function ShiftOctet(c: nat, k: nat): Byte
    requires k < 4
  {
    (c / Weight(k)) % 256
  }

  /** The address at offset `c` from `base`, octet by octet and with no carry
      from one octet into the next. */
  function AddOffset(base: seq<Byte>, c: nat): (ip: seq<Byte>)
    requires |base| == 4
    ensures |ip| == 4
    ensures forall k :: 0 <= k < 4 ==> ip[k] == (base[k] + ShiftOctet(c, k)) % 256
  {
    [(base[0] + ShiftOctet(c, 0)) % 256, (base[1] + ShiftOctet(c, 1)) % 256,
     (base[2] + ShiftOctet(c, 2)) % 256, (base[3] + ShiftOctet(c, 3)) % 256]
  }

  /** The part of `Release`'s offset sum that comes from octets `k` to 3. */
  function OffsetFrom(ip: seq<Byte>, base: seq<Byte>, k: nat): nat
    requires |ip| == 4 && |base| == 4 && k <= 4
    decreases 4 - k
  {
    if k == 4 then 0
    else ((ip[k] as int - base[k] as int) % 256) * Weight(k) + OffsetFrom(ip, base, k + 1)
  }

  /** `Release`'s offset of `ip` from `base`: each octet difference taken as
      a `uint8`, shifted into place and summed. */
  function Offset(ip: seq<Byte>, base: seq<Byte>): nat
    requires |ip| == 4 && |base| == 4
  {
    OffsetFrom(ip, base, 0)
  }

  /** What `Allocate` does to the loaded table, and the address it returns. */
  function AllocateSpec(table: map<string, string>, subnet: IPNet): (map<string, string>, Option<seq<Byte>>)
    requires ValidNet(subnet)
    requires KeyOf(subnet) in table || subnet.prefix < 32
  {
    var net := Canonical(subnet);
    var key := CidrKey(net);
    var bm := if key in table then table[key] else InitialBitmap(net.prefix);
    match FirstFree(bm)
    case None => (table[key := bm], None)
    case Some(c) => (table[key := bm[c := '1']], Some(AddOffset(net.ip, c)))
  }

  /** `AllocateSpec` read off the bitmap it works on. */
  lemma AllocateSpecOf(table: map<string, string>, subnet: IPNet, bm: string)
    requires ValidNet(subnet)
    requires KeyOf(subnet) in table || subnet.prefix < 32
    requires bm == if KeyOf(subnet) in table then table[KeyOf(subnet)] else InitialBitmap(subnet.prefix)
    ensures FirstFree(bm).None? ==> AllocateSpec(table, subnet) == (table[KeyOf(subnet) := bm], None)
    ensures forall c :: FirstFree(bm) == Some(c)
              ==> AllocateSpec(table, subnet)
                  == (table[KeyOf(subnet) := bm[c := '1']], Some(AddOffset(Canonical(subnet).ip, c)))
  {
  }

  /** What `Release` does to the loaded table. */
  function ReleaseSpec(table: map<string, string>, subnet: IPNet, ip: seq<Byte>): map<string, string>
    requires ValidNet(subnet) && |ip| == 4
    requires Offset(ip, Canonical(subnet).ip) < |Lookup(table, KeyOf(subnet))|
  {
    var key := KeyOf(subnet);
    table[key := table[key][Offset(ip, Canonical(subnet).ip) := '0']]
  }

  // ---------------------------------------------------------------------
  // The allocator object.

  class Allocator {
    var subnets: map<string, string>
    var stored: map<string, string>

    /** An allocator whose allocation file holds `stored` (an absent file
        reads as an empty table). */
    constructor (stored: map<string, string>)
      ensures this.stored == stored && subnets == map[]
    {
      this.stored := stored;
      subnets := map[];
    }

    /** `IPAM.Allocate`. `loadOk` and `dumpOk` say whether reading and
        writing the allocation file succeed. A failed write is logged and its
        error returned beside the address already taken. */
    method Allocate(subnet: IPNet, loadOk: bool, dumpOk: bool) returns (ip: Option<seq<Byte>>, err: Outcome)
      requires ValidNet(subnet)
      requires loadOk ==> KeyOf(subnet) in stored || subnet.prefix < 32
      modifies this
      ensures !loadOk ==> ip.None? && err.Fail? && subnets == map[] && stored == old(stored)
      ensures loadOk ==> (subnets, ip) == AllocateSpec(old(stored), subnet)
      ensures loadOk && dumpOk ==> err == Pass && stored == subnets
      ensures loadOk && !dumpOk ==> err.Fail? && stored == old(stored)
    {
      subnets := map[];
      if !loadOk {
        return None, Fail("load subnet allocation info error");
      }
      subnets := stored;
      var net := Canonical(subnet);
      var key := CidrKey(net);
      if key !in subnets {
        subnets := subnets[key := InitialBitmap(net.prefix)];
      }
      var bm := subnets[key];
      assert key == KeyOf(subnet);
      assert subnets == old(stored)[key := bm];
      assert bm == if key in old(stored) then old(stored)[key] else InitialBitmap(net.prefix);
      AllocateSpecOf(old(stored), subnet, bm);
      ip := None;
      var c := FindFree(bm);
      if c < |bm| {
        var alloc := SetAt(bm, c, '1');
        subnets := subnets[key := alloc];
        var addr := AddOffsetBytes(net.ip, c);
        ip := Some(addr);
        assert subnets == old(stored)[key := bm[c := '1']];
        assert FirstFree(bm) == Some(c);
      } else {
        assert FirstFree(bm).None?;
      }
      if dumpOk {
        stored := subnets;
        err := Pass;
      } else {
        err := Fail("dump ipam error");
      }
    }

    /** `IPAM.Release`: frees the address `ipaddr` of `subnet`. */
    method Release(subnet: IPNet, ipaddr: seq<Byte>, loadOk: bool, dumpOk: bool) returns (err: Outcome)
      requires ValidNet(subnet) && |ipaddr| == 4
      requires loadOk ==> Offset(ipaddr, Canonical(subnet).ip) < |Lookup(stored, KeyOf(subnet))|
      modifies this
      ensures !loadOk ==> err.Fail? && subnets == map[] && stored == old(stored)
      ensures loadOk ==> err == Pass && subnets == ReleaseSpec(old(stored), subnet, ipaddr)
      ensures loadOk && dumpOk ==> stored == subnets
      ensures loadOk && !dumpOk ==> stored == old(stored)
    {
      subnets := map[];
      var net := Canonical(subnet);
      if !loadOk {
        return Fail("load subnet allocation info error");
      }
      subnets := stored;
      var c := OffsetBytes(ipaddr, net.ip);
      var key := CidrKey(net);
      var bm := Lookup(subnets, key);
      var alloc := SetAt(bm, c, '0');
      subnets := subnets[key := alloc];
      if dumpOk {
        stored := subnets;
      }
      err := Pass;
    }
  }

  /** The scan of `Allocate`: the first position holding '0', or `|bm|`
      when there is none. */
  method FindFree(bm: string) returns (c: nat)
    ensures c <= |bm|
    ensures c == |bm| <==> FirstFree(bm).None?
    ensures c < |bm| ==> FirstFree(bm) == Some(c)
  {
    c := 0;
    while c < |bm| && bm[c] != '0'
      invariant 0 <= c <= |bm|
      invariant forall j :: 0 <= j < c ==> bm[j] != '0'
    {
      c := c + 1;
    }
  }

  /** The bitmap copied to a byte array, one byte overwritten, and turned
      back into a string. */
  method SetAt(bm: string, c: nat, ch: char) returns (r: string)
    requires c < |bm|
    ensures r == bm[c := ch]
  {
    var alloc := new char[|bm|](i requires 0 <= i < |bm| => bm[i]);
    alloc[c] := ch;
    r := alloc[..];
  }

  /** The loop of `Allocate` that adds the offset to the subnet address one
      octet at a time, highest first. */
  method AddOffsetBytes(base: seq<Byte>, c: nat) returns (ip: seq<Byte>)
    requires |base| == 4
    ensures ip == AddOffset(base, c)
  {
    var addr := new Byte[4](k requires 0 <= k < 4 => base[k]);
    var t := 4;
    while t > 0
      invariant 0 <= t <= 4
      invariant forall k :: 0 <= k < 4 - t ==> addr[k] == AddOffset(base, c)[k]
      invariant forall k :: 4 - t <= k < 4 ==> addr[k] == base[k]
    {
      AddOctetStep(base, c, t);
      assert addr[4 - t] == base[4 - t];
      addr[4 - t] := (addr[4 - t] + (c / Pow2((t - 1) * 8)) % 256) % 256;
      t := t - 1;
    }
    ip := addr[..];
    assert forall k :: 0 <= k < 4 ==> ip[k] == AddOffset(base, c)[k];
  }

  /** One turn of `AddOffsetBytes`' loop computes octet `4 - t` of the
      address. */
  lemma AddOctetStep(base: seq<Byte>, c: nat, t: nat)
    requires |base| == 4 && 0 < t <= 4
    ensures (base[4 - t] + (c / Pow2((t - 1) * 8)) % 256) % 256 == AddOffset(base, c)[4 - t]
  {
    var k := 4 - t;
    assert (c / Pow2((t - 1) * 8)) % 256 == ShiftOctet(c, k) by {
      ShiftIsWeight(k);
      assert (t - 1) * 8 == (3 - k) * 8;
    }
  }

  /** The loop of `Release` that sums the octet differences, lowest first. */
  method OffsetBytes(ip: seq<Byte>, base: seq<Byte>) returns (c: nat)
    requires |ip| == 4 && |base| == 4
    ensures c == Offset(ip, base)
  {
    c := 0;
    var t := 4;
    while t > 0
      invariant 0 <= t <= 4
      invariant c == OffsetFrom(ip, base, t)
    {
      OffsetFromStep(ip, base, t - 1);
      ShiftIsWeight(t - 1);
      c := c + ((ip[t - 1] as int - base[t - 1] as int) % 256) * Pow2((4 - t) * 8);
      t := t - 1;
    }
  }

  // ---------------------------------------------------------------------
  // Arithmetic facts.

  lemma {:induction false} Pow2Add(a: nat, b: nat)
    ensures Pow2(a + b) == Pow2(a) * Pow2(b)
  {
    if a > 0 {
      Pow2Add(a - 1, b);
      assert Pow2(a + b) == 2 * Pow2(a - 1 + b);
    }
  }

  lemma {:induction false} Pow2Monotone(a: nat, b: nat)
    requires a <= b
    ensures Pow2(a) <= Pow2(b)
  {
    if a < b {
      Pow2Monotone(a, b - 1);
    }
  }

  lemma Pow2Octets()
    ensures Pow2(0) == 1 && Pow2(8) == 256 && Pow2(16) == 65536
    ensures Pow2(24) == 16777216 && Pow2(32) == 4294967296
  {
  }

  lemma {:induction false} MaskLowBounds(x: nat, h: nat)
    ensures MaskLow(x, h) <= x && x - MaskLow(x, h) < Pow2(h)
  {
    if h > 0 {
      MaskLowBounds(x / 2, h - 1);
    }
  }

  lemma {:induction false} MaskLowIdempotent(x: nat, h: nat)
    ensures MaskLow(MaskLow(x, h), h) == MaskLow(x, h)
  {
    if h > 0 {
      MaskLowIdempotent(x / 2, h - 1);
      assert 2 * MaskLow(x / 2, h - 1) / 2 == MaskLow(x / 2, h - 1);
    }
  }

  /** A value with its `h` low bits clear leaves room below 2^n for any
      value below 2^h. */
  lemma {:induction false} MaskLowRoom(x: nat, h: nat, n: nat, o: nat)
    requires h <= n && x < Pow2(n) && o < Pow2(h)
    ensures MaskLow(x, h) + o < Pow2(n)
  {
    if h > 0 {
      MaskLowRoom(x / 2, h - 1, n - 1, o / 2);
    }
  }

  /** The loops' shift amounts, `(t-1)*8` and `(4-t)*8`, as octet place
      values. */
  lemma ShiftIsWeight(k: int)
    requires 0 <= k < 4
    ensures Pow2((3 - k) * 8) == Weight(k)
  {
    Pow2Octets();
    if k == 0 { assert (3 - k) * 8 == 24; }
    else if k == 1 { assert (3 - k) * 8 == 16; }
    else if k == 2 { assert (3 - k) * 8 == 8; }
    else { assert (3 - k) * 8 == 0; }
  }

  lemma DivBound(c: nat, w: nat, b: nat)
    requires w > 0 && c < w * b
    ensures c / w < b
  {
  }

  /** Any offset below 2^32 is the sum of its four octets in place. */
  lemma Decompose(c: nat)
    requires c < 4294967296
    ensures c == ((ShiftOctet(c, 0) * 256 + ShiftOctet(c, 1)) * 256 + ShiftOctet(c, 2)) * 256 + ShiftOctet(c, 3)
  {
    var q1 := c / 256;
    var q2 := q1 / 256;
    var q3 := q2 / 256;
    assert c / 65536 == q2;
    assert c / 16777216 == q3;
    assert ShiftOctet(c, 3) == c % 256;
    assert ShiftOctet(c, 2) == q1 % 256;
    assert ShiftOctet(c, 1) == q2 % 256;
    assert ShiftOctet(c, 0) == q3;
  }

  /** Under the zero-host-bits condition, octet `k` of an in-range offset
      fits in that octet's host bits. */
  lemma ShiftOctetFits(prefix: int, k: nat, c: nat)
    requires 0 <= prefix <= 32 && k < 4 && c < Pow2(32 - prefix)
    ensures ShiftOctet(c, k) < Pow2(HostBits(prefix, k))
  {
    var w := Weight(k);
    var h := 8 + 8 * k - prefix;
    var q := c / w;
    assert ShiftOctet(c, k) == q % 256;
    assert Pow2((3 - k) * 8) == w by { ShiftIsWeight(k); }
    if h <= 0 {
      assert c < w by { Pow2Monotone(32 - prefix, (3 - k) * 8); }
      assert q == 0;
      assert HostBits(prefix, k) == 0;
    } else if h >= 8 {
      assert HostBits(prefix, k) == 8;
      assert Pow2(8) == 256 by { Pow2Octets(); }
    } else {
      var b := Pow2(h);
      assert c < w * b by {
        Pow2Add((3 - k) * 8, h);
        assert 32 - prefix == (3 - k) * 8 + h;
      }
      assert q < b by { DivBound(c, w, b); }
      assert b <= 256 by {
        Pow2Monotone(h, 8);
        Pow2Octets();
      }
      assert q % 256 == q;
      assert HostBits(prefix, k) == h;
    }
  }

  lemma {:induction false} OffsetFromStep(ip: seq<Byte>, base: seq<Byte>, k: nat)
    requires |ip| == 4 && |base| == 4 && k < 4
    ensures OffsetFrom(ip, base, k) == ((ip[k] as int - base[k] as int) % 256) * Weight(k) + OffsetFrom(ip, base, k + 1)
  {
  }

  // ---------------------------------------------------------------------
  // What the allocator promises.

  /** A subnet met for the first time gets a bitmap with one character per
      address, the network and broadcast addresses taken and the rest free;
      nothing else in the table changes. */
  lemma FirstUseBitmap(table: map<string, string>, subnet: IPNet)
    requires ValidNet(subnet) && subnet.prefix < 32 && KeyOf(subnet) !in table
    ensures var bm := AllocateSpec(table, subnet).0[KeyOf(subnet)];
      |bm| == Pow2(32 - subnet.prefix)
      && bm[0] == '1' && bm[|bm| - 1] == '1'
      && (|bm| > 2 ==> bm[1] == '1' && forall i :: 1 < i < |bm| - 1 ==> bm[i] == '0')
    ensures forall k :: k in table ==> k in AllocateSpec(table, subnet).0 && AllocateSpec(table, subnet).0[k] == table[k]
  {
    var ib := InitialBitmap(subnet.prefix);
    if |ib| > 2 {
      assert FirstFree(ib) == Some(1);
    } else {
      assert FirstFree(ib) == None;
    }
  }

  /** `Allocate` takes exactly the lowest free address: one character, the
      first '0', becomes '1' and everything else in the table stays. When
      there is no '0' the table is unchanged and no address (and no error)
      comes back. */
  lemma AllocateTakesLowestFree(table: map<string, string>, subnet: IPNet)
    requires ValidNet(subnet) && KeyOf(subnet) in table
    ensures var (t, ip) := AllocateSpec(table, subnet);
      var key := KeyOf(subnet);
      var old_bm, new_bm := table[key], t[key];
      && t.Keys == table.Keys
      && (forall k :: k in table && k != key ==> t[k] == table[k])
      && |new_bm| == |old_bm|
      && (ip.None? <==> '0' !in old_bm)
      && (ip.None? ==> t == table)
      && (ip.Some? ==> exists c :: 0 <= c < |old_bm| && old_bm[c] == '0' && new_bm[c] == '1'
                         && (forall j :: 0 <= j < c ==> old_bm[j] != '0')
                         && (forall j :: 0 <= j < |old_bm| && j != c ==> new_bm[j] == old_bm[j])
                         && ip.value == AddOffset(Canonical(subnet).ip, c))
  {
    var key := KeyOf(subnet);
    var bm := table[key];
    match FirstFree(bm)
    case None =>
      assert table[key := bm] == table;
    case Some(c) =>
      var nb := bm[c := '1'];
      assert 0 <= c < |bm| && bm[c] == '0' && nb[c] == '1';
  }

  /** The per-octet addition without carry is ordinary addition when the
      base address has its host bits clear and the offset lies within the
      subnet. */
  lemma AddOffsetIsAddition(net: IPNet, c: nat)
    requires ValidNet(net) && net == Canonical(net) && c < Pow2(32 - net.prefix)
    ensures ToInt(AddOffset(net.ip, c)) == ToInt(net.ip) + c
  {
    var b := net.ip;
    OctetNoCarry(net, c, 0);
    OctetNoCarry(net, c, 1);
    OctetNoCarry(net, c, 2);
    OctetNoCarry(net, c, 3);
    var a := AddOffset(b, c);
    assert a[0] == b[0] + ShiftOctet(c, 0) && a[1] == b[1] + ShiftOctet(c, 1);
    assert a[2] == b[2] + ShiftOctet(c, 2) && a[3] == b[3] + ShiftOctet(c, 3);
    assert c < 4294967296 by {
      Pow2Monotone(32 - net.prefix, 32);
      Pow2Octets();
    }
    Decompose(c);
    SumOfOctets(a[0], a[1], a[2], a[3], b[0], b[1], b[2], b[3],
                ShiftOctet(c, 0), ShiftOctet(c, 1), ShiftOctet(c, 2), ShiftOctet(c, 3));
  }

  /** Adding two numbers written in base 256, digit by digit. */
  lemma SumOfOctets(a0: int, a1: int, a2: int, a3: int, b0: int, b1: int, b2: int, b3: int,
                    o0: int, o1: int, o2: int, o3: int)
    requires a0 == b0 + o0 && a1 == b1 + o1 && a2 == b2 + o2 && a3 == b3 + o3
    ensures ((a0 * 256 + a1) * 256 + a2) * 256 + a3
         == ((b0 * 256 + b1) * 256 + b2) * 256 + b3 + (((o0 * 256 + o1) * 256 + o2) * 256 + o3)
  {
  }

  /** Adding octet `k` of an in-range offset to a base with clear host bits
      never overflows the octet. */
  lemma OctetNoCarry(net: IPNet, c: nat, k: nat)
    requires ValidNet(net) && net == Canonical(net) && k < 4 && c < Pow2(32 - net.prefix)
    ensures net.ip[k] + ShiftOctet(c, k) < 256
  {
    var h := HostBits(net.prefix, k);
    assert net.ip[k] == MaskLow(net.ip[k], h);
    ShiftOctetFits(net.prefix, k, c);
    Pow2Octets();
    MaskLowRoom(net.ip[k], h, 8, ShiftOctet(c, k));
  }

  /** `Release`'s offset sum written out. */
  lemma OffsetByOctets(ip: seq<Byte>, base: seq<Byte>)
    requires |ip| == 4 && |base| == 4
    ensures Offset(ip, base)
         == (((ip[0] as int - base[0] as int) % 256 * 256 + (ip[1] as int - base[1] as int) % 256) * 256
             + (ip[2] as int - base[2] as int) % 256) * 256 + (ip[3] as int - base[3] as int) % 256
  {
    OffsetFromStep(ip, base, 0);
    OffsetFromStep(ip, base, 1);
    OffsetFromStep(ip, base, 2);
    OffsetFromStep(ip, base, 3);
  }

  /** Subtracting an octet as a `uint8` undoes adding it as a `uint8`. */
  lemma OctetDifference(b: Byte, o: Byte)
    ensures (((b + o) % 256) as int - b as int) % 256 == o
  {
    var sum := b as int + o as int;
    if sum >= 256 {
      assert (b + o) % 256 == sum - 256;
    }
  }

  /** `Release`'s offset sum recovers the offset `Allocate` added, for every
      base address and every offset below 2^32. */
  lemma OffsetInvertsAddOffset(base: seq<Byte>, c: nat)
    requires |base| == 4 && c < 4294967296
    ensures Offset(AddOffset(base, c), base) == c
  {
    var ip := AddOffset(base, c);
    var o0, o1, o2, o3 := ShiftOctet(c, 0), ShiftOctet(c, 1), ShiftOctet(c, 2), ShiftOctet(c, 3);
    assert (ip[0] as int - base[0] as int) % 256 == o0 by { OctetDifference(base[0], o0); }
    assert (ip[1] as int - base[1] as int) % 256 == o1 by { OctetDifference(base[1], o1); }
    assert (ip[2] as int - base[2] as int) % 256 == o2 by { OctetDifference(base[2], o2); }
    assert (ip[3] as int - base[3] as int) % 256 == o3 by { OctetDifference(base[3], o3); }
    OffsetByOctets(ip, base);
    Decompose(c);
  }

  /** A bitmap whose network and broadcast positions are taken, as every
      bitmap `Allocate` creates is. */
  predicate Guarded(bm: string, prefix: int)
    requires 0 <= prefix <= 32
  {
    |bm| == Pow2(32 - prefix) && |bm| >= 2 && bm[0] == '1' && bm[|bm| - 1] == '1'
  }

  /** On a guarded bitmap, and so on every subnet's first use, the address
      handed out lies strictly between the network address and the broadcast
      address. */
  lemma AllocateAvoidsNetworkAndBroadcast(table: map<string, string>, subnet: IPNet)
    requires ValidNet(subnet) && subnet.prefix < 32
    requires KeyOf(subnet) in table ==> Guarded(table[KeyOf(subnet)], subnet.prefix)
    ensures var ip := AllocateSpec(table, subnet).1;
      var n := ToInt(Canonical(subnet).ip);
      ip.Some? ==> n < ToInt(ip.value) < n + Pow2(32 - subnet.prefix) - 1
  {
    var net := Canonical(subnet);
    var key := KeyOf(subnet);
    assert net.prefix == subnet.prefix;
    var bm := if key in table then table[key] else InitialBitmap(subnet.prefix);
    assert Guarded(bm, subnet.prefix);
    AllocateSpecOf(table, subnet, bm);
    if FirstFree(bm).Some? {
      var c := FirstFree(bm).value;
      assert c != 0 && c != |bm| - 1;
      assert AllocateSpec(table, subnet).1 == Some(AddOffset(net.ip, c));
      CanonicalIdempotent(subnet);
      AddOffsetIsAddition(net, c);
    }
  }

  /** Allocation keeps a bitmap guarded. */
  lemma AllocateKeepsGuarded(table: map<string, string>, subnet: IPNet)
    requires ValidNet(subnet) && subnet.prefix < 32
    requires KeyOf(subnet) in table ==> Guarded(table[KeyOf(subnet)], subnet.prefix)
    ensures Guarded(AllocateSpec(table, subnet).0[KeyOf(subnet)], subnet.prefix)
  {
  }

  lemma CanonicalIdempotent(n: IPNet)
    requires ValidNet(n)
    ensures Canonical(Canonical(n)) == Canonical(n)
  {
    var c := Canonical(n);
    forall k | 0 <= k < 4
      ensures MaskOctet(c.ip[k], HostBits(n.prefix, k)) == c.ip[k]
    {
      MaskLowIdempotent(n.ip[k], HostBits(n.prefix, k));
    }
  }

  /** Giving back the address just handed out restores the table the
      allocator had before, for a subnet already in use. */
  lemma ReleaseUndoesAllocate(table: map<string, string>, subnet: IPNet)
    requires ValidNet(subnet) && KeyOf(subnet) in table
    requires |table[KeyOf(subnet)]| <= 4294967296
    requires AllocateSpec(table, subnet).1.Some?
    ensures var (t, ip) := AllocateSpec(table, subnet);
      Offset(ip.value, Canonical(subnet).ip) < |Lookup(t, KeyOf(subnet))|
      && ReleaseSpec(t, subnet, ip.value) == table
  {
    var net := Canonical(subnet);
    var key := CidrKey(net);
    var bm := table[key];
    var c := FirstFree(bm).value;
    OffsetInvertsAddOffset(net.ip, c);
    assert bm[c := '1'][c := '0'] == bm;
    assert table[key := bm] == table;
  }

  /** The first two allocations in a fresh subnet of at least four
      addresses take offsets 1 and 2. */
  lemma FreshTwice(table: map<string, string>, subnet: IPNet)
    requires ValidNet(subnet) && subnet.prefix <= 30 && KeyOf(subnet) !in table
    ensures var (t1, ip1) := AllocateSpec(table, subnet);
      var base := Canonical(subnet).ip;
      ip1 == Some(AddOffset(base, 1)) && AllocateSpec(t1, subnet).1 == Some(AddOffset(base, 2))
  {
    var key := KeyOf(subnet);
    var bm := InitialBitmap(subnet.prefix);
    assert |bm| >= 4 by {
      Pow2Monotone(2, 32 - subnet.prefix);
      assert Pow2(2) == 4;
    }
    TwoFreeSlots(bm);
    AllocateSpecOf(table, subnet, bm);
    var t1 := table[key := bm[1 := '1']];
    assert key in t1 && t1[key] == bm[1 := '1'];
    AllocateSpecOf(t1, subnet, bm[1 := '1']);
  }

  /** In a bitmap that starts with one taken slot followed by free ones, the
      first two scans find slots 1 and 2. */
  lemma TwoFreeSlots(bm: string)
    requires |bm| >= 4 && bm[0] == '1' && bm[1] == '0' && bm[2] == '0'
    ensures FirstFree(bm) == Some(1) && FirstFree(bm[1 := '1']) == Some(2)
  {
    var bm2 := bm[1 := '1'];
    assert bm2[0] == '1' && bm2[1] == '1' && bm2[2] == '0';
  }

  /** Two allocations on a fresh 192.168.1.0/24 hand out 192.168.1.1 and then
      192.168.1.2. */
  lemma FreshSlash24(table: map<string, string>)
    requires KeyOf(IPNet([192, 168, 1, 0], 24)) !in table
    ensures var net := IPNet([192, 168, 1, 0], 24);
      var (t1, ip1) := AllocateSpec(table, net);
      ip1 == Some([192, 168, 1, 1]) && AllocateSpec(t1, net).1 == Some([192, 168, 1, 2])
  {
    var net := IPNet([192, 168, 1, 0], 24);
    assert HostBits(24, 0) == 0 && HostBits(24, 1) == 0 && HostBits(24, 2) == 0 && HostBits(24, 3) == 8;
    assert MaskLow(0, 8) == 0;
    assert Canonical(net).ip == [192, 168, 1, 0];
    FreshTwice(table, net);
    SmallOffset([192, 168, 1, 0], 1);
    SmallOffset([192, 168, 1, 0], 2);
  }

  /** An offset below 256 only touches the last octet. */
  lemma SmallOffset(base: seq<Byte>, c: nat)
    requires |base| == 4 && c < 256 && base[3] + c < 256
    ensures AddOffset(base, c) == base[..3] + [base[3] + c]
  {
    assert c / 16777216 == 0 && c / 65536 == 0 && c / 256 == 0;
    assert ShiftOctet(c, 0) == 0 && ShiftOctet(c, 1) == 0 && ShiftOctet(c, 2) == 0;
    assert ShiftOctet(c, 3) == c;
    var a := AddOffset(base, c);
    assert a[0] == base[0] && a[1] == base[1] && a[2] == base[2] && a[3] == base[3] + c;
    assert a == base[..3] + [base[3] + c];
  }
}
