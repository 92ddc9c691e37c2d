/**
 Address ranges of either family: masking the bits of an address is the same as an interval of numbers
 (section 3.1 of RFC 4632).
 */
module Addresses {

  /** An address as bits, most significant first. */
  type Bits = seq<bool>

  function Pow2(e: nat): nat {
    if e == 0 then 1 else 2 * Pow2(e - 1)
  }

  function Value(b: Bits): nat {
    if b == [] then 0 else 2 * Value(b[..|b| - 1]) + (if b[|b| - 1] then 1 else 0)
  }

  /** The mask of a prefix length: ones, then zeros. */
  function Mask(ones: nat, width: nat): (m: Bits)
    ensures |m| == width
  {
    seq(width, i => i < ones)
  }

  function And(a: Bits, m: Bits): (r: Bits)
    requires |a| == |m|
    ensures |r| == |a|
  {
    seq(|a|, i requires 0 <= i < |a| => a[i] && m[i])
  }

  /** The network a CIDR string denotes: its address masked. */
  datatype Network = Network(address: Bits, ones: nat)

  predicate WellFormed(n: Network) {
    n.ones <= |n.address| && And(n.address, Mask(n.ones, |n.address|)) == n.address
  }

  /** `net.IPNet.Contains`: an address of the other family is never inside. */
  predicate Contains(n: Network, ip: Bits)
    requires WellFormed(n)
  {
    |ip| == |n.address| && And(ip, Mask(n.ones, |ip|)) == And(n.address, Mask(n.ones, |ip|))
  }

  lemma {:induction false} ValueSplits(b: Bits, k: nat)
    requires k <= |b|
    ensures Value(b) == Value(b[..k]) * Pow2(|b| - k) + Value(b[k..])
    decreases |b|
  {
    if k == |b| {
      assert b[..k] == b && b[k..] == [];
    } else {
      var init := b[..|b| - 1];
      ValueSplits(init, k);
      assert init[..k] == b[..k];
      assert b[k..][..|b[k..]| - 1] == init[k..];
      assert Pow2(|b| - k) == 2 * Pow2(|init| - k);
      Doubling(Value(b[..k]), Pow2(|init| - k));
    }
  }

  lemma Doubling(v: nat, p: nat)
    ensures 2 * (v * p) == v * (2 * p)
  {
  }

  lemma {:induction false} ValueBound(b: Bits)
    ensures Value(b) < Pow2(|b|)
  {
    if b != [] {
      ValueBound(b[..|b| - 1]);
    }
  }

  lemma {:induction false} ValueOfZeros(b: Bits)
    requires forall i :: 0 <= i < |b| ==> !b[i]
    ensures Value(b) == 0
  {
    if b != [] {
      ValueOfZeros(b[..|b| - 1]);
    }
  }

  lemma {:induction false} ValueInjective(a: Bits, b: Bits)
    requires |a| == |b| && Value(a) == Value(b)
    ensures a == b
  {
    if a != [] {
      ValueInjective(a[..|a| - 1], b[..|b| - 1]);
      assert a == a[..|a| - 1] + [a[|a| - 1]] && b == b[..|b| - 1] + [b[|b| - 1]];
    }
  }

  lemma NextBlock(x: int, y: int, p: nat)
    requires x < y
    ensures x * p + p <= y * p
  {
    assert (y - x - 1) * p >= 0;
  }

  lemma QuotientsAgree(x: int, y: int, p: nat, r: nat)
    requires r < p && y * p <= x * p + r < y * p + p
    ensures x == y
  {
    if x < y {
      NextBlock(x, y, p);
    } else if x > y {
      NextBlock(y, x, p);
    }
  }

  lemma MaskedPrefix(ip: Bits, n: Network)
    requires WellFormed(n) && |ip| == |n.address|
    ensures Contains(n, ip) <==> ip[..n.ones] == n.address[..n.ones]
    ensures forall i :: n.ones <= i < |ip| ==> !n.address[i]
  {
    var m := Mask(n.ones, |ip|);
    var x, y := And(ip, m), And(n.address, m);
    assert forall i :: n.ones <= i < |ip| ==> !x[i] && !y[i] && n.address[i] == y[i];
    assert forall i :: 0 <= i < n.ones ==> x[i] == ip[i] && y[i] == n.address[i];
    if ip[..n.ones] == n.address[..n.ones] {
      assert forall i :: 0 <= i < n.ones ==> ip[i] == ip[..n.ones][i] && n.address[i] == n.address[..n.ones][i];
      assert x == y;
    }
    if x == y {
      assert forall i :: 0 <= i < n.ones ==> ip[i] == x[i];
    }
  }

  /** A network contains exactly the addresses from its base up to the next block of its size. */
  lemma ContainsIffInRange(n: Network, ip: Bits)
    requires WellFormed(n)
    ensures Contains(n, ip) <==>
      |ip| == |n.address| && Value(n.address) <= Value(ip) < Value(n.address) + Pow2(|ip| - n.ones)
  {
    if |ip| == |n.address| {
      SameFamilyInRange(n, ip);
    }
  }

  lemma SameFamilyInRange(n: Network, ip: Bits)
    requires WellFormed(n) && |ip| == |n.address|
    ensures Contains(n, ip) <==> Value(n.address) <= Value(ip) < Value(n.address) + Pow2(|ip| - n.ones)
  {
    MaskedPrefix(ip, n);
    var k, size := n.ones, Pow2(|ip| - n.ones);
    ValueSplits(ip, k);
    ValueSplits(n.address, k);
    ValueOfZeros(n.address[k..]);
    ValueBound(ip[k..]);
    var x, y := Value(ip[..k]), Value(n.address[..k]);
    assert Value(n.address) == y * size;
    if y * size <= Value(ip) < y * size + size {
      QuotientsAgree(x, y, size, Value(ip[k..]));
      ValueInjective(ip[..k], n.address[..k]);
    }
  }
}
