/** Model of internal/controller/checkbinding: whether a source and a target are
    eligible hosts of an enrolled prefix set. */
module CheckBinding {
  import opened Ordering
  import opened NetIP

  // ----- Address eligibility and the table of excluded ranges

  predicate EligibleHost(a: Addr) {
    && !(a.V4? && (a.Top(8) == 0 || a.Top(8) >= 224))
    && !a.NoAddr? && a.IsGlobalUnicast() && !a.IsLoopback() && !a.Is4In6()
    && !a.HasZone() && !a.IsLinkLocalUnicast()
  }

  /** Enough room for the numbers below. */
  lemma SmallPowers()
    ensures Pow2(3) == 8 && Pow2(8) == 256 && Pow2(10) == 1024 && Pow2(16) == 0x1_0000
  {
    assert Pow2(5) == 32;
    assert Pow2(12) == 4096;
    assert Pow2(14) == 16384;
  }

  /** A range by family, the number in its high bits, and its length. */
  datatype Range = Range(v4: bool, top: nat, bits: nat)

  /** 0.0.0.0/8, 127.0.0.0/8, 169.254.0.0/16, 224.0.0.0/3, ::/128, ::1/128,
      ::ffff:0:0/96, fe80::/10 and ff00::/8. */
  function Entry(i: nat): Range
    requires i < 9
  {
    if i == 0 then Range(true, 0, 8)
    else if i == 1 then Range(true, 127, 8)
    else if i == 2 then Range(true, 0xa9fe, 16)
    else if i == 3 then Range(true, 7, 3)
    else if i == 4 then Range(false, 0, 128)
    else if i == 5 then Range(false, 1, 128)
    else if i == 6 then Range(false, 0xffff, 96)
    else if i == 7 then Range(false, 0x3fa, 10)
    else Range(false, 0xff, 8)
  }

  lemma EntryFits(i: nat)
    requires i < 9
    ensures Entry(i).bits <= (if Entry(i).v4 then 32 else 128)
    ensures Entry(i).top < Pow2(Entry(i).bits)
  {
    SmallPowers();
    if Entry(i).bits >= 16 { Pow2Grows(16, Entry(i).bits); }
  }

  function Excluded(i: nat): (p: Prefix)
    requires i < 9
    ensures p.IsValid() && p.bits == Entry(i).bits && p.addr.Is4() == Entry(i).v4
    ensures p.addr.Top(p.bits) == Entry(i).top
  {
    EntryFits(i);
    var r := Entry(i);
    Network(if r.v4 then V4(0) else V6(0, ""), r.top, r.bits)
  }

  predicate ExcludedRange(p: Prefix) {
    exists i | 0 <= i < 9 :: p.Overlaps(Excluded(i))
  }

  predicate InTable(a: Addr) {
    exists i | 0 <= i < 9 :: Excluded(i).Contains(a)
  }

  lemma ExcludedContains(i: nat, a: Addr)
    requires i < 9 && !a.NoAddr? && !a.HasZone()
    ensures Excluded(i).Contains(a) <==>
            var r := Entry(i); a.Is4() == r.v4 && r.bits <= a.Width() && a.Top(r.bits) == r.top
  {
  }

  lemma TableV4(a: Addr, i: nat)
    requires a.V4? && i < 9
    ensures Excluded(i).Contains(a) <==>
            || (i == 0 && a.Top(8) == 0) || (i == 1 && a.Top(8) == 127)
            || (i == 2 && a.Top(16) == 0xa9fe) || (i == 3 && a.Top(3) == 7)
  {
    ExcludedContains(i, a);
  }

  lemma TableV6(a: Addr, i: nat)
    requires a.V6? && !a.HasZone() && i < 9
    ensures Excluded(i).Contains(a) <==>
            || (i == 4 && a.v6 == 0) || (i == 5 && a.v6 == 1)
            || (i == 6 && a.Top(96) == 0xffff) || (i == 7 && a.Top(10) == 0x3fa) || (i == 8 && a.Top(8) == 0xff)
  {
    ExcludedContains(i, a);
  }

  /** 224.0.0.0/3 is every first byte from 224 on, 224.0.0.0/4 is inside it, and
      the limited broadcast address too. */
  lemma HighV4(a: Addr)
    requires a.V4?
    ensures a.Top(3) == 7 <==> a.Top(8) >= 224
    ensures a.Top(4) == 0xe ==> a.Top(8) >= 224
    ensures a.v4 + 1 == Pow2(a.Width()) ==> a.Top(8) == 255
    ensures a.Top(8) == 0 || a.v4 != 0
  {
    SmallPowers();
    TopOfTop(a, 3, 8);
    TopOfTop(a, 4, 8);
    ShrBound(a.v4, 24, 8);
    ZeroHasNoTop(24);
  }

  lemma {:induction false} ZeroHasNoTop(n: nat)
    ensures Shr(0, n) == 0
  {
    if n != 0 { ZeroHasNoTop(n - 1); }
  }

  lemma EligibleV4(a: Addr)
    requires a.V4?
    ensures EligibleHost(a) <==> !InTable(a)
  {
    HighV4(a);
    forall i | 0 <= i < 9 ensures Excluded(i).Contains(a) ==> !EligibleHost(a) { TableV4(a, i); }
    if !EligibleHost(a) {
      var i := if a.Top(8) == 0 then 0 else if a.Top(8) == 127 then 1 else if a.Top(16) == 0xa9fe then 2 else 3;
      TableV4(a, i);
    }
  }

  lemma EligibleV6(a: Addr)
    requires a.V6? && !a.HasZone()
    ensures EligibleHost(a) <==> !InTable(a)
  {
    forall i | 0 <= i < 9 ensures Excluded(i).Contains(a) ==> !EligibleHost(a) { TableV6(a, i); }
    if !EligibleHost(a) {
      var i := if a.v6 == 0 then 4 else if a.v6 == 1 then 5 else if a.Top(96) == 0xffff then 6
          else if a.Top(10) == 0x3fa then 7 else 8;
      TableV6(a, i);
    }
  }

  /** An address without a zone is an eligible host exactly when it lies in none
      of the nine excluded ranges. */
  lemma EligibleHostAvoidsTable(a: Addr)
    requires !a.NoAddr? && !a.HasZone()
    ensures EligibleHost(a) <==> !InTable(a)
  {
    if a.V4? { EligibleV4(a); } else { EligibleV6(a); }
  }

  /** Nine overlap tests decide a statement about every address of the range:
      a prefix is rejected exactly when some address in it is not eligible. */
  lemma ExcludedRangeIsExact(p: Prefix)
    requires p.IsValid()
    ensures ExcludedRange(p) <==> exists a :: p.Contains(a) && !EligibleHost(a)
  {
    forall i | 0 <= i < 9
      ensures p.Overlaps(Excluded(i)) <==> exists a :: p.Contains(a) && Excluded(i).Contains(a)
    {
      OverlapsMeansSharedAddress(p, Excluded(i));
    }
    forall a | p.Contains(a) && !EligibleHost(a) ensures ExcludedRange(p) {
      EligibleHostAvoidsTable(a);
    }
    if ExcludedRange(p) {
      var i :| 0 <= i < 9 && p.Overlaps(Excluded(i));
      var a :| p.Contains(a) && Excluded(i).Contains(a);
      EligibleHostAvoidsTable(a);
    }
  }

  // ----- The last address of a prefix, computed bit by bit on bytes

  type Byte = x: nat | x < 256

  /** The big-endian value of a byte string. */
  function Value(b: seq<Byte>): nat {
    if |b| == 0 then 0 else Value(b[..|b| - 1]) * 256 + b[|b| - 1]
  }

  /** `x | 1 << k`. */
  function SetBit(x: nat, k: nat): nat {
    if BitAt(x, k) then x else x + Pow2(k)
  }

  lemma {:induction false} SetBitFits(x: nat, k: nat, n: nat)
    requires k < n && x < Pow2(n)
    ensures SetBit(x, k) < Pow2(n)
    decreases n
  {
    HalfFits(x, n);
    if k != 0 {
      SetBitFits(x / 2, k - 1, n - 1);
      SetBitHalves(x, k);
    }
  }

  lemma HalfFits(x: nat, n: nat)
    requires n > 0 && x < Pow2(n)
    ensures Pow2(n) == 2 * Pow2(n - 1) && x == 2 * (x / 2) + x % 2 && x / 2 < Pow2(n - 1)
  {
  }

  lemma SetBitHalves(x: nat, k: nat)
    requires k > 0
    ensures SetBit(x, k) == 2 * SetBit(x / 2, k - 1) + x % 2
  {
    assert Pow2(k) == 2 * Pow2(k - 1);
  }

  lemma Halved(h: nat, b: nat)
    requires b < 2
    ensures (2 * h + b) / 2 == h && (2 * h + b) % 2 == b
  {
  }

  /** Bits at and above n are those of the shifted number. */
  lemma {:induction false} BitAbove(x: nat, n: nat, lo: nat, k: nat)
    requires lo < Pow2(n)
    ensures BitAt(Shl(x, n) + lo, n + k) == BitAt(x, k)
    decreases n
  {
    if n != 0 { BitAbove(x, n - 1, lo / 2, k); }
  }

  /** Bits below n are those of the remainder. */
  lemma {:induction false} BitBelow(x: nat, n: nat, lo: nat, k: nat)
    requires k < n
    ensures BitAt(Shl(x, n) + lo, k) == BitAt(lo, k)
    decreases n
  {
    if k != 0 { BitBelow(x, n - 1, lo / 2, k - 1); }
  }

  lemma {:induction false} ShlAdds(x: nat, k: nat, n: nat)
    ensures Shl(x + Pow2(k), n) == Shl(x, n) + Pow2(k + n)
    decreases n
  {
    if n != 0 { ShlAdds(x, k, n - 1); }
    else { assert k + n == k; }
  }

  /** Setting a bit of the shifted number sets the corresponding bit of the sum. */
  lemma SetBitAbove(x: nat, n: nat, lo: nat, k: nat)
    requires lo < Pow2(n)
    ensures SetBit(Shl(x, n) + lo, n + k) == Shl(SetBit(x, k), n) + lo
  {
    BitAbove(x, n, lo, k);
    ShlAdds(x, k, n);
    assert n + k == k + n;
  }

  lemma {:induction false} ValueSplits(a: seq<Byte>, b: seq<Byte>)
    ensures Value(a + b) == Shl(Value(a), 8 * |b|) + Value(b)
    ensures Value(b) < Pow2(8 * |b|)
  {
    if |b| == 0 {
      assert a + b == a;
    } else {
      var c := b[..|b| - 1];
      assert (a + b)[..|a + b| - 1] == a + c;
      ValueSplits(a, c);
      OneByteMore(Value(a), Value(c), b[|b| - 1], 8 * |c|);
    }
  }

  lemma OneByteMore(x: nat, y: nat, b: Byte, n: nat)
    requires y < Pow2(n)
    ensures (Shl(x, n) + y) * 256 + b == Shl(x, n + 8) + (y * 256 + b)
    ensures y * 256 + b < Pow2(n + 8)
  {
    ShlShl(x, n, 8);
    ShlBound(y, n, 8);
    ByteShift(Shl(x, n), y);
    ByteShift(0, y);
  }

  lemma ByteShift(x: nat, y: nat)
    ensures (x + y) * 256 == Shl(x, 8) + Shl(y, 8)
    ensures Pow2(8) == 256
  {
    assert Shl(x, 4) == 16 * x && Shl(y, 4) == 16 * y;
    ShlShl(x, 4, 4);
    ShlShl(y, 4, 4);
  }

  /** The same for a byte b between a head h and a tail of n bits. */
  lemma SetBitInByte(h: nat, b: Byte, k: nat, n: nat, lo: nat)
    requires k < 8 && lo < Pow2(n)
    ensures SetBit(b, k) < 256
    ensures SetBit(Shl(h * 256 + b, n) + lo, n + k) == Shl(h * 256 + SetBit(b, k), n) + lo
  {
    ByteShift(h, 0);
    SetBitFits(b, k, 8);
    BitBelow(h, 8, b, k);
    SetBitAbove(h * 256 + b, n, lo, k);
  }

  /** Setting bit `7 - bit % 8` of byte `bit / 8` sets the bit of weight
      2^(width - 1 - bit) of the value. */
  lemma SetBitOfValue(b: seq<Byte>, bit: nat)
    requires bit < 8 * |b|
    ensures SetBit(b[bit / 8], 7 - bit % 8) < 256
    ensures Value(b[bit / 8 := SetBit(b[bit / 8], 7 - bit % 8)]) == SetBit(Value(b), 8 * |b| - 1 - bit)
  {
    var i, k := bit / 8, 7 - bit % 8;
    var n := 8 * (|b| - 1 - i);
    assert 8 * |b| - 1 - bit == n + k;
    ValueAround(b, i);
    SetBitInByte(Value(b[..i]), b[i], k, n, Value(b[i + 1..]));
    var c: seq<Byte> := b[i := SetBit(b[i], k)];
    ValueAround(c, i);
    assert c[..i] == b[..i] && c[i + 1..] == b[i + 1..];
  }

  lemma ValueAround(b: seq<Byte>, i: nat)
    requires i < |b|
    ensures Value(b[i + 1..]) < Pow2(8 * (|b| - 1 - i))
    ensures Value(b) == Shl(Value(b[..i + 1]), 8 * (|b| - 1 - i)) + Value(b[i + 1..])
    ensures Value(b[..i + 1]) == Value(b[..i]) * 256 + b[i]
  {
    assert b == b[..i + 1] + b[i + 1..];
    ValueSplits(b[..i + 1], b[i + 1..]);
    assert b[..i + 1][..i] == b[..i];
  }

  /** x followed by n one bits. */
  function Ones(x: nat, n: nat): nat {
    if n == 0 then x else 2 * Ones(x, n - 1) + 1
  }

  lemma {:induction false} OnesIsTop(x: nat, n: nat)
    ensures Ones(x, n) == Shl(x, n) + Pow2(n) - 1
  {
    if n != 0 { OnesIsTop(x, n - 1); }
  }

  lemma {:induction false} LowBits(x: nat, n: nat)
    ensures Low(x, n + 1) == Low(x, n) + (if BitAt(x, n) then Pow2(n) else 0)
    decreases n
  {
    if n != 0 { LowBits(x / 2, n - 1); }
  }

  lemma {:induction false} LowKeepsBits(x: nat, n: nat, k: nat)
    requires k < n
    ensures BitAt(Low(x, n), k) == BitAt(x, k)
    decreases n
  {
    Halved(Low(x / 2, n - 1), x % 2);
    assert Low(x, n) == 2 * Low(x / 2, n - 1) + x % 2;
    if k != 0 { LowKeepsBits(x / 2, n - 1, k - 1); }
  }

  /** One turn of the loop, on values: bit n - 1 joins the ones above it. */
  lemma FillOneBit(v0: nat, y: nat, n: nat)
    requires n >= 1
    ensures SetBit(Shl(y, n) + Low(v0, n), n - 1) == Shl(2 * y + 1, n - 1) + Low(v0, n - 1)
  {
    BitBelow(y, n, Low(v0, n), n - 1);
    LowKeepsBits(v0, n, n - 1);
    LowBits(v0, n - 1);
    ShlAdds(2 * y, 0, n - 1);
    ShlShl(y, 1, n - 1);
    assert Shl(y, 1) == 2 * y;
  }

  /** The value of v0 after its bits from `from` to `bit` have been set. */
  function Filling(v0: nat, width: nat, from: nat, bit: nat): nat
    requires from <= bit <= width
  {
    Shl(Ones(Shr(v0, width - from), bit - from), width - bit) + Low(v0, width - bit)
  }

  lemma FillingStep(v0: nat, width: nat, from: nat, bit: nat)
    requires from <= bit < width
    ensures SetBit(Filling(v0, width, from, bit), width - 1 - bit) == Filling(v0, width, from, bit + 1)
  {
    FillOneBit(v0, Ones(Shr(v0, width - from), bit - from), width - bit);
  }

  lemma FillingEnds(v0: nat, width: nat, from: nat)
    requires from <= width
    ensures Filling(v0, width, from, from) == v0
    ensures Filling(v0, width, from, width) == Shl(Shr(v0, width - from), width - from) + Pow2(width - from) - 1
  {
    ShiftRoundTrip(v0, width - from);
    OnesIsTop(Shr(v0, width - from), width - from);
  }

  /** The loop of `lastAddress`: for bit := from; bit < width; bit++. */
  method FillHostBits(b: array<Byte>, from: nat)
    requires from <= 8 * b.Length
    modifies b
    ensures var h := 8 * b.Length - from;
            Value(b[..]) == Shl(Shr(old(Value(b[..])), h), h) + Pow2(h) - 1
  {
    var width := 8 * b.Length;
    ghost var v0 := Value(b[..]);
    FillingEnds(v0, width, from);
    var bit := from;
    while bit < width
      invariant from <= bit <= width
      invariant Value(b[..]) == Filling(v0, width, from, bit)
    {
      ghost var before := b[..];
      SetBitOfValue(before, bit);
      b[bit / 8] := SetBit(b[bit / 8], 7 - bit % 8);
      assert b[..] == before[bit / 8 := SetBit(before[bit / 8], 7 - bit % 8)];
      FillingStep(v0, width, from, bit);
      bit := bit + 1;
    }
  }

  /** The greatest address a prefix contains. */
  function LastOf(p: Prefix): (r: Addr)
    requires p.IsValid()
    ensures r.Width() == p.addr.Width() && !r.HasZone() && !r.NoAddr?
    ensures r.Bits() == Shl(p.addr.Top(p.bits), p.HostBits()) + p.Size() - 1
  {
    TopOfTop(p.addr, 0, p.bits);
    ShlBound(p.addr.Top(p.bits), p.bits, p.HostBits());
    WithBits(p.addr, Shl(p.addr.Top(p.bits), p.HostBits()) + p.Size() - 1)
  }

  lemma {:induction false} ValueOfBytes(v: nat, n: nat)
    requires v < Pow2(8 * n)
    ensures |ToBytes(v, n)| == n && Value(ToBytes(v, n)) == v
  {
    if n != 0 {
      ByteShift(0, 0);
      ShrBound(v, 8, 8 * (n - 1));
      assert Shr(v, 8) == v / 256 by { assert Shr(v, 4) == v / 16; ShrShr(v, 4, 4); }
      ValueOfBytes(v / 256, n - 1);
      assert ToBytes(v, n)[..n - 1] == ToBytes(v / 256, n - 1);
    }
  }

  /** `As4` and `As16`. */
  function ToBytes(v: nat, n: nat): seq<Byte> {
    if n == 0 then [] else ToBytes(v / 256, n - 1) + [v % 256]
  }

  /** base + 2^(width - bits) - 1, for both widths and every length. */
  method LastAddress(p: Prefix) returns (r: Addr)
    requires p.IsValid()
    ensures r == LastOf(p)
  {
    var n := if p.addr.Is4() then 4 else 16;
    var bytes := ToBytes(p.addr.Bits(), n);
    ValueOfBytes(p.addr.Bits(), n);
    var b := new Byte[n](i requires 0 <= i < n => bytes[i]);
    assert b[..] == bytes;
    FillHostBits(b, p.bits);
    assert Value(b[..]) == LastOf(p).Bits();
    r := WithBits(p.addr, Value(b[..]));
  }

  /** `LastOf` and the address of a masked prefix bound its members exactly. */
  lemma MembersAreAnInterval(p: Prefix, a: Addr)
    requires p.IsValid() && p.IsMasked()
    requires !a.NoAddr? && !a.HasZone() && a.Width() == p.addr.Width()
    ensures p.Contains(a) <==> p.addr.Bits() <= a.Bits() <= LastOf(p).Bits()
    ensures LastOf(p).Bits() == p.addr.Bits() + p.Size() - 1
  {
    ShrIsInterval(a.Bits(), p.HostBits(), p.addr.Top(p.bits));
  }

  // ----- Hosts of a subnet

  predicate SubnetHost(p: Prefix, a: Addr)
    requires p.IsValid()
  {
    if a.Is6() then p.bits == 128 || a != p.addr
    else p.bits >= 31 || (a != p.addr && a != LastOf(p))
  }

  /** Section 2.1 of RFC 3021 and section 2.6.1 of RFC 4291: a member is vetoed
      exactly when it is the lowest or highest address of an IPv4 range of more
      than two addresses, or the lowest of an IPv6 range of more than one. */
  lemma SubnetHostVetoes(p: Prefix, a: Addr)
    requires p.IsValid() && p.IsMasked() && p.Contains(a)
    ensures !SubnetHost(p, a) <==>
            if a.Is4() then p.Size() > 2 && (a.Bits() == p.addr.Bits() || a.Bits() == p.addr.Bits() + p.Size() - 1)
            else p.Size() > 1 && a.Bits() == p.addr.Bits()
  {
    MembersAreAnInterval(p, a);
    if p.HostBits() >= 2 {
      Pow2Grows(2, p.HostBits());
      assert Pow2(2) == 4;
    }
  }

  // ----- Validate

  type ValidPrefix = p: Prefix | p.IsValid() witness Prefix(V4(0), 0)

  /** Prefix text is a parameter: `parse` is netip.ParsePrefix and `show` is
      Prefix.String. */
  datatype Text = Text(parse: string -> Option<ValidPrefix>, show: Prefix -> string)

  ghost predicate AllEligible(p: Prefix) {
    forall a :: p.Contains(a) ==> EligibleHost(a)
  }

  predicate HasMember(t: Text, raw: string, a: Addr) {
    t.parse(raw).Some? && t.parse(raw).value.Contains(a)
  }

  predicate Vetoes(t: Text, raw: string, a: Addr) {
    HasMember(t, raw, a) && !SubnetHost(t.parse(raw).value, a)
  }

  predicate Canonical(t: Text, raw: string) {
    |raw| <= 64 && t.parse(raw).Some? && t.parse(raw).value.IsMasked() && t.show(t.parse(raw).value) == raw
  }

  /** The text is canonical, every address it covers is an eligible host, and it
      vetoes neither endpoint. */
  ghost predicate Accepts(t: Text, raw: string, source: Addr, target: Addr) {
    && Canonical(t, raw) && AllEligible(t.parse(raw).value)
    && !Vetoes(t, raw, source) && !Vetoes(t, raw, target)
  }

  predicate EndpointsAllowed(source: Addr, target: Addr) {
    EligibleHost(target) && EligibleHost(source) && source.Is4() == target.Is4() && source != target
  }

  ghost predicate AllAccept(t: Text, source: Addr, target: Addr, enrolled: seq<string>) {
    Distinct(enrolled) && forall raw :: raw in enrolled ==> Accepts(t, raw, source, target)
  }

  ghost predicate SomeMember(t: Text, enrolled: seq<string>, a: Addr) {
    exists raw :: raw in enrolled && HasMember(t, raw, a)
  }

  /** What the enrolled list must satisfy as a whole. */
  ghost predicate Binds(t: Text, source: Addr, target: Addr, enrolled: seq<string>) {
    && EndpointsAllowed(source, target) && 1 <= |enrolled| <= 32
    && AllAccept(t, source, target, enrolled) && SomeMember(t, enrolled, source)
  }

  datatype Binding = Binding(prefixes: seq<string>, targetMember: bool)

  ghost function Decision(t: Text, source: Addr, target: Addr, enrolled: seq<string>): Option<Binding> {
    if Binds(t, source, target, enrolled)
    then Some(Binding(SortBy(enrolled, Self), SomeMember(t, enrolled, target)))
    else None
  }

  /** The check of one range: both ends and the table, against all its addresses. */
  method RangeAccepted(p: Prefix) returns (ok: bool)
    requires p.IsValid() && p.IsMasked()
    ensures ok <==> AllEligible(p)
  {
    var last := LastAddress(p);
    MembersAreAnInterval(p, last);
    MembersAreAnInterval(p, p.addr);
    ExcludedRangeIsExact(p);
    ok := EligibleHost(p.addr) && EligibleHost(last) && !ExcludedRange(p);
  }

  /** The body of the loop, apart from the duplicate test. */
  method CheckOne(t: Text, raw: string, source: Addr, target: Addr) returns (ok: bool)
    ensures ok <==> Accepts(t, raw, source, target)
  {
    if !Canonical(t, raw) {
      return false;
    }
    ok := RangeAccepted(t.parse(raw).value);
    ok := ok && !Vetoes(t, raw, source) && !Vetoes(t, raw, target);
  }

  method Validate(t: Text, source: Addr, target: Addr, enrolled: seq<string>) returns (r: Option<Binding>)
    ensures r == Decision(t, source, target, enrolled)
  {
    if !EndpointsAllowed(source, target) || |enrolled| == 0 || |enrolled| > 32 {
      return None;
    }
    var prefixes: seq<string>, seen: set<Prefix> := [], {};
    var sourceMember, targetMember := false, false;
    for i := 0 to |enrolled|
      invariant prefixes == enrolled[..i]
      invariant AllAccept(t, source, target, prefixes)
      invariant forall raw :: raw in prefixes ==> t.parse(raw).value in seen
      invariant forall p :: p in seen ==> t.show(p) in prefixes
      invariant sourceMember <==> SomeMember(t, prefixes, source)
      invariant targetMember <==> SomeMember(t, prefixes, target)
    {
      var raw := enrolled[i];
      var ok := CheckOne(t, raw, source, target);
      if !ok {
        assert raw in enrolled;
        return None;
      }
      var p := t.parse(raw).value;
      if p in seen {
        var j :| 0 <= j < i && prefixes[j] == raw;
        assert enrolled[j] == enrolled[i];
        return None;
      }
      seen := seen + {p};
      prefixes := prefixes + [raw];
      sourceMember := sourceMember || p.Contains(source);
      targetMember := targetMember || p.Contains(target);
    }
    assert prefixes == enrolled;
    if !sourceMember {
      return None;
    }
    return Some(Binding(SortBy(prefixes, Self), targetMember));
  }

  /** The whole result is the same for every order of the enrolled list. */
  lemma DecisionIgnoresOrder(t: Text, source: Addr, target: Addr, a: seq<string>, b: seq<string>)
    requires multiset(a) == multiset(b)
    ensures Decision(t, source, target, a) == Decision(t, source, target, b)
  {
    PermutationKeepsDistinct(a, b);
    SortStringsIsPermutationInvariant(a, b);
  }
}
