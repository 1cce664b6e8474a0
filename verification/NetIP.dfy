/** Addresses and prefixes as Go's `net/netip` defines them: an address is a
    big-endian integer of 32 or 128 bits, and a prefix keeps the high `bits`
    bits of its address. Numbers are shifted and masked by recursion on bits. */
module NetIP {

  function Pow2(n: nat): (r: nat)
    ensures r >= 1
  {
    if n == 0 then 1 else 2 * Pow2(n - 1)
  }

  /** x >> n */
  function Shr(x: nat, n: nat): nat
    decreases n
  {
    if n == 0 then x else Shr(x / 2, n - 1)
  }

  /** x << n */
  function Shl(x: nat, n: nat): nat
    decreases n
  {
    if n == 0 then x else 2 * Shl(x, n - 1)
  }

  /** The low n bits of x. */
  function Low(x: nat, n: nat): nat
    decreases n
  {
    if n == 0 then 0 else 2 * Low(x / 2, n - 1) + x % 2
  }

  /** Bit k of x, counted from the least significant. */
  predicate BitAt(x: nat, k: nat)
    decreases k
  {
    if k == 0 then x % 2 == 1 else BitAt(x / 2, k - 1)
  }

  /** `NoAddr` is the zero `netip.Addr`. */
  datatype RawAddr = NoAddr | V4(v4: nat) | V6(v6: nat, zone: string) {
    predicate Is4() { V4? }
    predicate Is6() { V6? }
    function Width(): nat { if V4? then 32 else if V6? then 128 else 0 }
    function Bits(): nat { if V4? then v4 else if V6? then v6 else 0 }
    predicate HasZone() { V6? && zone != "" }

    /** The high k bits, as a number. */
    function Top(k: nat): nat
      requires k <= Width()
    { Shr(Bits(), Width() - k) }

    predicate Is4In6() { V6? && Top(96) == 0xffff }
    predicate IsUnspecified() { !NoAddr? && Bits() == 0 && !HasZone() }
    predicate IsLoopback() { (V4? && Top(8) == 127) || (V6? && v6 == 1) }
    predicate IsMulticast() { (V4? && Top(4) == 0xe) || (V6? && Top(8) == 0xff) }
    predicate IsLinkLocalUnicast() { (V4? && Top(16) == 0xa9fe) || (V6? && Top(10) == 0x3fa) }
    predicate IsGlobalUnicast() {
      && !NoAddr? && !IsUnspecified()
      && !(V4? && v4 + 1 == Pow2(Width()))
      && !IsLoopback() && !IsMulticast() && !IsLinkLocalUnicast()
    }
  }

  type Addr = a: RawAddr | a.Bits() < Pow2(a.Width()) witness NoAddr

  function WithBits(like: Addr, bits: nat): (r: Addr)
    requires !like.NoAddr? && bits < Pow2(like.Width())
    ensures r.Is4() == like.Is4() && r.Width() == like.Width() && r.Bits() == bits && !r.NoAddr? && !r.HasZone()
  {
    if like.V4? then V4(bits) else V6(bits, "")
  }

  datatype Prefix = Prefix(addr: Addr, bits: int) {
    predicate IsValid() { !addr.NoAddr? && !addr.HasZone() && 0 <= bits <= addr.Width() }
    function HostBits(): nat requires IsValid() { addr.Width() - bits }
    /** The number of addresses the prefix covers. */
    function Size(): (r: nat)
      requires IsValid()
      ensures r >= 1
    { Pow2(HostBits()) }
    /** `p == p.Masked()`: the host bits are zero. */
    predicate IsMasked() requires IsValid() { Shl(addr.Top(bits), HostBits()) == addr.Bits() }
    predicate Contains(a: Addr) {
      IsValid() && !a.HasZone() && a.Width() == addr.Width() && a.Top(bits) == addr.Top(bits)
    }
    predicate Overlaps(o: Prefix) {
      && IsValid() && o.IsValid()
      && addr.Is4() == o.addr.Is4()
      && var m := if bits < o.bits then bits else o.bits;
         addr.Top(m) == o.addr.Top(m)
    }
    function Masked(): (r: Prefix)
      requires IsValid()
      ensures r.IsValid() && r.bits == bits && r.addr.Width() == addr.Width()
    {
      ShiftRoundTrip(addr.Bits(), HostBits());
      Prefix(WithBits(addr, Shl(addr.Top(bits), HostBits())), bits)
    }
  }

  /** The prefix whose high bits are the number `top`. */
  function Network(like: Addr, top: nat, bits: nat): (p: Prefix)
    requires !like.NoAddr? && bits <= like.Width() && top < Pow2(bits)
    ensures p.IsValid() && p.bits == bits
    ensures p.addr.Width() == like.Width() && p.addr.Is4() == like.Is4() && p.addr.Top(bits) == top
  {
    ShlBound(top, bits, like.Width() - bits);
    ShrIsInterval(Shl(top, like.Width() - bits), like.Width() - bits, top);
    Prefix(WithBits(like, Shl(top, like.Width() - bits)), bits)
  }

  // ----- Shift arithmetic

  lemma {:induction false} ShrShr(x: nat, a: nat, b: nat)
    ensures Shr(Shr(x, a), b) == Shr(x, a + b)
    decreases a
  {
    if a != 0 { ShrShr(x / 2, a - 1, b); }
  }

  lemma {:induction false} ShlShl(x: nat, a: nat, b: nat)
    ensures Shl(Shl(x, a), b) == Shl(x, a + b)
    decreases b
  {
    if b != 0 { ShlShl(x, a, b - 1); }
  }

  lemma {:induction false} ShlBound(x: nat, k: nat, n: nat)
    requires x < Pow2(k)
    ensures Shl(x, n) + Pow2(n) <= Pow2(k + n)
  {
    if n != 0 { ShlBound(x, k, n - 1); }
    else { assert k + n == k; }
  }

  lemma {:induction false} ShrBound(x: nat, n: nat, k: nat)
    requires x < Pow2(n + k)
    ensures Shr(x, n) < Pow2(k)
    ensures x + 1 == Pow2(n + k) ==> Shr(x, n) + 1 == Pow2(k)
    decreases n
  {
    if n != 0 { ShrBound(x / 2, n - 1, k); }
  }

  /** x >> n is q exactly for the 2^n numbers from q << n on. */
  lemma {:induction false} ShrIsInterval(x: nat, n: nat, q: nat)
    ensures Shr(x, n) == q <==> Shl(q, n) <= x < Shl(q, n) + Pow2(n)
    decreases n
  {
    if n != 0 { ShrIsInterval(x / 2, n - 1, q); }
  }

  lemma {:induction false} ShiftRoundTrip(x: nat, n: nat)
    ensures x == Shl(Shr(x, n), n) + Low(x, n)
    ensures Low(x, n) < Pow2(n)
    decreases n
  {
    if n != 0 { ShiftRoundTrip(x / 2, n - 1); }
  }

  lemma {:induction false} Pow2Grows(a: nat, b: nat)
    requires a <= b
    ensures Pow2(a) <= Pow2(b)
  {
    if a < b { Pow2Grows(a, b - 1); }
  }

  // ----- Nested prefixes

  /** The high j bits of an address are the high j bits of its high k bits. */
  lemma TopOfTop(a: Addr, j: nat, k: nat)
    requires j <= k <= a.Width()
    ensures a.Top(j) == Shr(a.Top(k), k - j)
    ensures a.Top(k) < Pow2(k)
  {
    ShrShr(a.Bits(), a.Width() - k, k - j);
    ShrBound(a.Bits(), a.Width() - k, k);
  }

  /** `Overlaps` compares only the shorter mask, yet decides whether the two
      ranges share an address. */
  lemma OverlapsMeansSharedAddress(p: Prefix, o: Prefix)
    requires p.IsValid() && o.IsValid()
    ensures p.Overlaps(o) <==> exists a :: p.Contains(a) && o.Contains(a)
  {
    if p.Overlaps(o) {
      if p.bits < o.bits { assert p.Contains(o.addr) && o.Contains(o.addr); }
      else { assert p.Contains(p.addr) && o.Contains(p.addr); }
    }
    forall a | p.Contains(a) && o.Contains(a) ensures p.Overlaps(o) {
      if p.bits <= o.bits {
        TopOfTop(a, p.bits, o.bits);
        TopOfTop(o.addr, p.bits, o.bits);
      } else {
        TopOfTop(a, o.bits, p.bits);
        TopOfTop(p.addr, o.bits, p.bits);
      }
    }
  }
}
