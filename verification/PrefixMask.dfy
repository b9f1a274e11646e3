/**
 IPv6 prefix masks: building one from a length, applying it to an address, and counting the
 prefix bits of a mask.  Addresses and masks are byte buffers updated in place; each method is
 proved against a function on the byte sequence, and the laws are lemmas about those functions.
 */
module PrefixMask {
  type Octet = bv8
  const ADDRESS_SIZE: nat := 16

  /** Bit `j` of a byte, 7 being the most significant. */
  predicate BitSet(b: Octet, j: nat)
    requires j < 8
  {
    b & ((1 as bv8) << j) != 0
  }

  /** A byte whose `ones` leading bits are set; `ones` saturates at both ends. */
  function MaskByte(ones: int): (b: Octet)
  {
    if ones >= 8 then 0xff
    else if ones <= 0 then 0
    else (((0xff00 as bv16) >> ones) & 0xff) as bv8
  }

  function Mask(len: nat): (m: seq<Octet>)
    ensures |m| == ADDRESS_SIZE
  {
    seq(ADDRESS_SIZE, i requires 0 <= i => MaskByte(len - 8 * i))
  }

  function Masked(addr: seq<Octet>, mask: seq<Octet>): (r: seq<Octet>)
    requires |addr| == |mask|
    ensures |r| == |addr|
  {
    seq(|addr|, i requires 0 <= i < |addr| => addr[i] & mask[i])
  }

  function NetAddr(addr: seq<Octet>, len: nat): (r: seq<Octet>)
    requires |addr| == ADDRESS_SIZE
    ensures |r| == ADDRESS_SIZE
  {
    Masked(addr, Mask(len))
  }

  /** Bit `j` of an address, counted from the most significant bit of the first byte. */
  predicate AddrBit(addr: seq<Octet>, j: nat)
    requires j < 8 * |addr|
  {
    BitSet(addr[j / 8], 7 - j % 8)
  }

  /**
   What `CountPrefixBits` accepts as a prefix of `n` bits.  Bit 0 of the boundary byte is never
   looked at, so it may be set; with seven bits in that byte it cannot be, as the byte would be 0xff.
   */
  ghost predicate AcceptedPrefix(val: seq<Octet>, n: nat)
  {
    && n <= 8 * |val|
    && forall i :: 0 <= i < |val| ==>
         || val[i] == MaskByte(n - 8 * i)
         || (i == n / 8 && n % 8 != 7 && val[i] == MaskByte(n - 8 * i) | 1)
  }

  /** The length `CountPrefixBits` reports: the accepted length, or 0 when none is accepted. */
  ghost function PrefixBits(val: seq<Octet>): (n: nat)
    ensures AcceptedPrefix(val, n) || (n == 0 && forall k: nat :: !AcceptedPrefix(val, k))
  {
    if exists k: nat :: AcceptedPrefix(val, k) then (var k: nat :| AcceptedPrefix(val, k); k) else 0
  }

  // ---------------------------------------------------------------- the code

  method Len2Mask(mask: array<Octet>, len: nat)
    requires mask.Length == ADDRESS_SIZE && len <= 8 * ADDRESS_SIZE
    modifies mask
    ensures mask[..] == Mask(len)
  {
    for k := 0 to mask.Length
      invariant forall j :: 0 <= j < k ==> mask[j] == 0
    {
      mask[k] := 0;
    }
    var i := 0;
    while i < len / 8
      invariant 0 <= i <= len / 8
      invariant forall j :: 0 <= j < i ==> mask[j] == 0xff
      invariant forall j :: i <= j < mask.Length ==> mask[j] == 0
    {
      mask[i] := 0xff;
      i := i + 1;
    }
    if len % 8 != 0 {
      mask[i] := (((0xff00 as bv16) >> (len % 8)) & 0xff) as bv8;
      assert len - 8 * i == len % 8;
    }
    assert forall j :: 0 <= j < mask.Length ==> mask[j] == MaskByte(len - 8 * j);
  }

  method MaskAddr(addr: array<Octet>, mask: array<Octet>)
    requires addr != mask && addr.Length == mask.Length
    modifies addr
    ensures addr[..] == Masked(old(addr[..]), mask[..])
  {
    ghost var masked := Masked(addr[..], mask[..]);
    var i := 0;
    while i < addr.Length
      invariant 0 <= i <= addr.Length
      invariant forall j :: 0 <= j < i ==> addr[j] == masked[j]
      invariant forall j :: i <= j < addr.Length ==> addr[j] == old(addr[j])
    {
      addr[i] := addr[i] & mask[i];
      i := i + 1;
    }
  }

  method ApplyNetAddr(addr: array<Octet>, len: nat)
    requires addr.Length == ADDRESS_SIZE && len <= 8 * ADDRESS_SIZE
    modifies addr
    ensures addr[..] == NetAddr(old(addr[..]), len)
  {
    var mask := new Octet[ADDRESS_SIZE];
    Len2Mask(mask, len);
    MaskAddr(addr, mask);
  }

  /** How many leading bits of a byte are set, of bits 7 to 1. */
  method CountOnes(b: Octet) returns (ones: nat)
    ensures ones <= 7
    ensures forall j: nat :: 7 - ones < j < 8 ==> BitSet(b, j)
    ensures ones < 7 ==> !BitSet(b, 7 - ones)
  {
    ones := 0;
    while ones < 7 && BitSet(b, 7 - ones)
      invariant ones <= 7
      invariant forall j: nat :: 7 - ones < j < 8 ==> BitSet(b, j)
    {
      ones := ones + 1;
    }
  }

  /** Whether a bit from `first` down to 1 is set, and which. */
  method FindStray(b: Octet, first: nat) returns (stray: nat)
    requires first < 8
    ensures stray <= first
    ensures stray != 0 ==> BitSet(b, stray)
    ensures stray == 0 ==> forall j: nat :: 1 <= j <= first ==> !BitSet(b, j)
  {
    stray := first;
    while stray != 0 && !BitSet(b, stray)
      invariant stray <= first
      invariant forall j: nat :: stray < j <= first ==> !BitSet(b, j)
    {
      stray := stray - 1;
    }
  }

  /** The first byte from `from` on that differs from `b`, or the end. */
  method SkipBytes(val: array<Octet>, from: nat, b: Octet) returns (octet: nat)
    requires from <= val.Length
    ensures from <= octet <= val.Length
    ensures forall j :: from <= j < octet ==> val[j] == b
    ensures octet < val.Length ==> val[octet] != b
  {
    octet := from;
    while octet < val.Length && val[octet] == b
      invariant from <= octet <= val.Length
      invariant forall j :: from <= j < octet ==> val[j] == b
    {
      octet := octet + 1;
    }
  }

  /** The scan as written: leading 0xff bytes, then bits 7 to 1 of the boundary byte, then zeros. */
  method CountPrefixBits(val: array<Octet>) returns (plen: nat)
    ensures plen == PrefixBits(val[..])
  {
    ghost var v := val[..];
    var octet := SkipBytes(val, 0, 0xff);
    plen := 8 * octet;
    if octet == val.Length {
      AllOnes(v);
      return;
    }
    var ones := CountOnes(val[octet]);
    plen := plen + ones;
    var stray := FindStray(val[octet], 7 - ones);
    if stray != 0 {
      ScatteredBitsRejected(v, octet, 7 - ones, stray);
      return 0;
    }
    var last := SkipBytes(val, octet + 1, 0);
    if last < val.Length {
      LaterByteRejected(v, octet, last);
      return 0;
    }
    LeadingOnes(v[octet], ones);
    BoundaryAccepted(v, octet, ones);
  }

  // ---------------------------------------------------------------- the laws

  /** The mask of length `len` has exactly its first `len` bits set. */
  lemma MaskBits(len: nat, j: nat)
    requires j < 8 * ADDRESS_SIZE
    ensures AddrBit(Mask(len), j) <==> j < len
  {
    ByteBits(len - 8 * (j / 8), 7 - j % 8);
  }

  /** Applying a prefix keeps the first `len` bits of any address and clears the others. */
  lemma NetAddrBits(addr: seq<Octet>, len: nat, j: nat)
    requires |addr| == 16 && j < 128
    ensures AddrBit(NetAddr(addr, len), j) <==> j < len && AddrBit(addr, j)
  {
    MaskBits(len, j);
    MeetBits(addr[j / 8], Mask(len)[j / 8], 7 - j % 8);
  }

  /** Prefixes compose by minimum, in either order; with `m == n` this is idempotence. */
  lemma NetAddrCompose(addr: seq<Octet>, m: nat, n: nat)
    requires |addr| == ADDRESS_SIZE
    ensures NetAddr(NetAddr(addr, m), n) == NetAddr(addr, if m < n then m else n)
    ensures NetAddr(NetAddr(addr, n), n) == NetAddr(addr, n)
  {
    var least := if m < n then m else n;
    forall i: nat | i < ADDRESS_SIZE ensures NetAddr(NetAddr(addr, m), n)[i] == NetAddr(addr, least)[i] {
      MaskTwice(addr[i], m - 8 * i, n - 8 * i);
    }
    forall i: nat | i < ADDRESS_SIZE ensures NetAddr(NetAddr(addr, n), n)[i] == NetAddr(addr, n)[i] {
      MaskTwice(addr[i], n - 8 * i, n - 8 * i);
    }
  }

  /** Counting the bits of a mask gives back the length it was built from. */
  lemma PrefixRoundTrip(n: nat)
    requires n <= 8 * ADDRESS_SIZE
    ensures PrefixBits(Mask(n)) == n
  {
    assert AcceptedPrefix(Mask(n), n);
    AcceptedLengthUnique(Mask(n), n, PrefixBits(Mask(n)));
  }

  /**
   A reported length means the value really is that mask exactly when bit 0 of the boundary byte
   is clear, the one bit the scan does not read.
   */
  lemma ReportedLengthIsExactIff(val: seq<Octet>)
    requires |val| == ADDRESS_SIZE && PrefixBits(val) != 0
    ensures var n := PrefixBits(val);
            val == Mask(n) <==> n == 8 * ADDRESS_SIZE || !BitSet(val[n / 8], 0)
  {
    var n := PrefixBits(val);
    if n < 8 * ADDRESS_SIZE {
      BitZeroOfMaskByte(n % 8);
      assert n - 8 * (n / 8) == n % 8;
      if !BitSet(val[n / 8], 0) {
        assert val == Mask(n);
      }
    } else {
      assert val == Mask(n);
    }
  }

  /** A value with a stray bit that is still reported as an 8-bit prefix. */
  lemma StrayBitAccepted()
    ensures var val := seq(ADDRESS_SIZE, i => if i == 0 then 0xff as bv8 else if i == 1 then 1 else 0);
            PrefixBits(val) == 8 && val != Mask(8)
  {
    var val := seq(ADDRESS_SIZE, i => if i == 0 then 0xff as bv8 else if i == 1 then 1 else 0);
    assert AcceptedPrefix(val, 8);
    AcceptedLengthUnique(val, 8, PrefixBits(val));
    assert val[1] != Mask(8)[1];
  }

  // ---------------------------------------------------------------- supporting facts

  lemma AllOnes(val: seq<Octet>)
    requires forall j :: 0 <= j < |val| ==> val[j] == 0xff
    ensures PrefixBits(val) == 8 * |val|
  {
    assert AcceptedPrefix(val, 8 * |val|);
    AcceptedLengthUnique(val, 8 * |val|, PrefixBits(val));
  }

  lemma BoundaryAccepted(val: seq<Octet>, octet: nat, ones: nat)
    requires octet < |val| && ones < 8
    requires forall j :: 0 <= j < octet ==> val[j] == 0xff
    requires forall j :: octet < j < |val| ==> val[j] == 0
    requires val[octet] == MaskByte(ones) || (ones != 7 && val[octet] == MaskByte(ones) | 1)
    ensures PrefixBits(val) == 8 * octet + ones
  {
    var n := 8 * octet + ones;
    assert AcceptedPrefix(val, n);
    AcceptedLengthUnique(val, n, PrefixBits(val));
  }

  lemma AcceptedLengthUnique(val: seq<Octet>, m: nat, n: nat)
    requires AcceptedPrefix(val, m) && AcceptedPrefix(val, n)
    ensures m == n
  {
    if m < n {
      AcceptedLengthNotLonger(val, m, n);
    } else if n < m {
      AcceptedLengthNotLonger(val, n, m);
    }
  }

  lemma AcceptedLengthNotLonger(val: seq<Octet>, m: nat, n: nat)
    requires AcceptedPrefix(val, m) && m < n
    ensures !AcceptedPrefix(val, n)
  {
    if AcceptedPrefix(val, n) {
      var i := m / 8;
      var b := val[i];
      assert m - 8 * i == m % 8;
      assert b == MaskByte(m % 8) || (m % 8 != 7 && b == MaskByte(m % 8) | 1);
      if n / 8 == i {
        assert n - 8 * i == n % 8;
        assert b == MaskByte(n % 8) || (n % 8 != 7 && b == MaskByte(n % 8) | 1);
        OnesDiffer(m % 8, n % 8);
        assert false;
      } else {
        assert b == 0xff;
        OnesDiffer(m % 8, 8);
        assert false;
      }
    }
  }

  /** Bytes with different numbers of leading ones differ, whatever bit 0 is. */
  lemma OnesDiffer(a: nat, b: nat)
    requires a < 8 && a < b <= 8
    ensures MaskByte(a) != MaskByte(b) && (a != 7 ==> MaskByte(a) | 1 != MaskByte(b))
    ensures b < 7 ==> MaskByte(a) != MaskByte(b) | 1 && MaskByte(a) | 1 != MaskByte(b) | 1
  {
    MaskByteTable();
  }

  /** A boundary byte with a set bit below a clear one is no prefix. */
  lemma ScatteredBitsRejected(val: seq<Octet>, octet: nat, first: nat, bit: nat)
    requires octet < |val| && 1 <= bit < first < 8
    requires forall j :: 0 <= j < octet ==> val[j] == 0xff
    requires !BitSet(val[octet], first) && BitSet(val[octet], bit)
    ensures PrefixBits(val) == 0
  {
    forall n: nat ensures !AcceptedPrefix(val, n) {
      if AcceptedPrefix(val, n) {
        BoundaryByte(val, octet, n);
        ByteBits(n - 8 * octet, first);
        ByteBits(n - 8 * octet, bit);
        SpareBit(MaskByte(n - 8 * octet), first);
        SpareBit(MaskByte(n - 8 * octet), bit);
        assert false;
      }
    }
  }

  lemma LaterByteRejected(val: seq<Octet>, octet: nat, later: nat)
    requires octet < later < |val| && val[later] != 0
    requires forall j :: 0 <= j < octet ==> val[j] == 0xff
    requires val[octet] != 0xff
    ensures PrefixBits(val) == 0
  {
    forall n: nat ensures !AcceptedPrefix(val, n) {
      if AcceptedPrefix(val, n) {
        BoundaryByte(val, octet, n);
        assert false;
      }
    }
  }

  /** The first byte that is not 0xff holds the boundary of any accepted prefix. */
  lemma BoundaryByte(val: seq<Octet>, octet: nat, n: nat)
    requires octet < |val| && val[octet] != 0xff && AcceptedPrefix(val, n)
    requires forall j :: 0 <= j < octet ==> val[j] == 0xff
    ensures n / 8 == octet
  {
    if n / 8 < octet {
      assert val[n / 8] == 0xff && n - 8 * (n / 8) == n % 8;
      OnesDiffer(n % 8, 8);
      assert false;
    }
  }

  /** Leading ones, then zeros down to bit 1: bit 0 is the only freedom left. */
  lemma LeadingOnes(b: Octet, k: nat)
    requires k < 8 && b != 0xff
    requires forall j: nat :: 7 - k < j < 8 ==> BitSet(b, j)
    requires forall j: nat :: 1 <= j <= 7 - k ==> !BitSet(b, j)
    ensures b == MaskByte(k) || (k != 7 && b == MaskByte(k) | 1)
  {
    MaskByteTable();
    var seen := [BitSet(b, 1), BitSet(b, 2), BitSet(b, 3), BitSet(b, 4),
                 BitSet(b, 5), BitSet(b, 6), BitSet(b, 7)];
  }

  lemma ByteBits(ones: int, j: nat)
    requires j < 8
    ensures BitSet(MaskByte(ones), j) <==> 8 - ones <= j
  {
    MaskByteTable();
    if j == 0 {} else if j == 1 {} else if j == 2 {} else if j == 3 {}
    else if j == 4 {} else if j == 5 {} else if j == 6 {} else {}
  }

  lemma SpareBit(b: Octet, j: nat)
    requires 1 <= j < 8
    ensures BitSet(b | 1, j) == BitSet(b, j)
  {
    if j == 1 {} else if j == 2 {} else if j == 3 {}
    else if j == 4 {} else if j == 5 {} else if j == 6 {} else {}
  }

  lemma BitZeroOfMaskByte(k: nat)
    requires k < 8
    ensures !BitSet(MaskByte(k), 0) && BitSet(MaskByte(k) | 1, 0)
  {
    MaskByteTable();
  }

  lemma MeetBits(a: Octet, b: Octet, j: nat)
    requires j < 8
    ensures BitSet(a & b, j) <==> BitSet(a, j) && BitSet(b, j)
  {
    if j == 0 {} else if j == 1 {} else if j == 2 {} else if j == 3 {}
    else if j == 4 {} else if j == 5 {} else if j == 6 {} else {}
  }

  lemma MeetAssociates(a: Octet, b: Octet, c: Octet)
    ensures (a & b) & c == a & (b & c) && b & b == b
  {
  }

  lemma MaskByteMeet(a: int, b: int)
    ensures MaskByte(a) & MaskByte(b) == MaskByte(if a < b then a else b)
  {
    MaskByteTable();
  }

  lemma MaskTwice(b: Octet, m: int, n: int)
    ensures (b & MaskByte(m)) & MaskByte(n) == b & MaskByte(if m < n then m else n)
  {
    MeetAssociates(b, MaskByte(m), MaskByte(n));
    MaskByteMeet(m, n);
  }

  lemma MaskByteTable()
    ensures MaskByte(1) == 0x80 && MaskByte(2) == 0xc0 && MaskByte(3) == 0xe0 && MaskByte(4) == 0xf0
    ensures MaskByte(5) == 0xf8 && MaskByte(6) == 0xfc && MaskByte(7) == 0xfe
  {
  }
}
