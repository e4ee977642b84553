/** How many tag bits the MPI context offers. */
module TagBits {

  ghost function Pow2(b: nat): (p: nat)
    ensures p > 0
  {
    if b == 0 then 1 else 2 * Pow2(b - 1)
  }

  /** The loop of the MPI context's constructor.  All values fit the 64-bit `unsigned long` of the source, since the
      largest tag is an unsigned 32-bit number.  The result is the greatest number of bits whose largest value is a
      legal tag. */
  method NumTagBits(maxTag: nat) returns (bits: nat)
    requires maxTag < 0x1_0000_0000
    ensures Pow2(bits) - 1 <= maxTag
    ensures forall b: nat :: Pow2(b) - 1 <= maxTag ==> b <= bits
  {
    var tmp, mask := maxTag, 1;
    bits := 0;
    while tmp > 0
      invariant mask == Pow2(bits)
      invariant tmp == maxTag / mask
      invariant maxTag == 0 ==> bits == 0
      invariant bits > 0 ==> Pow2(bits - 1) <= maxTag
      invariant mask <= 0x1_0000_0000 * 2
      decreases tmp
    {
      Halve(maxTag, mask);
      bits := bits + 1;
      tmp := tmp / 2;
      mask := mask * 2;
    }
    assert maxTag < mask by { QuotientZero(maxTag, mask); }
    mask := mask - 1;
    if mask > maxTag { bits := bits - 1; }
    forall b: nat | Pow2(b) - 1 <= maxTag
      ensures b <= bits
    {
      if b > bits { Pow2Monotone(bits + 1, b); }
    }
  }

  lemma Halve(m: nat, k: nat)
    requires k > 0 && m / k > 0
    ensures m / k / 2 == m / (k * 2)
    ensures k <= m
  {
    var p := m / k;
    var q, b, r := p / 2, p % 2, m % k;
    assert m == p * k + r;
    HalveSum(p, q, b, k);
    DivUnique(m, k * 2, q, b * k + r);
    assert p * k >= k by { AtLeastOnce(p, k); }
  }

  lemma HalveSum(p: nat, q: nat, b: nat, k: nat)
    requires p == 2 * q + b && b < 2
    ensures p * k == q * (k * 2) + b * k && b * k <= k
  {
    assert (2 * q) * k == q * (k * 2);
  }

  lemma AtLeastOnce(p: nat, k: nat)
    requires p > 0
    ensures p * k >= k
  {
    assert p * k == (p - 1) * k + k;
  }

  lemma DivUnique(m: nat, d: nat, q: nat, r: nat)
    requires d > 0 && m == q * d + r && r < d
    ensures m / d == q
  {
    var q' := m / d;
    var r' := m % d;
    assert m == q' * d + r';
    assert q' < q ==> (q' + 1) * d <= q * d;
    assert q < q' ==> (q + 1) * d <= q' * d;
  }

  lemma QuotientZero(m: nat, k: nat)
    requires k > 0 && m / k == 0
    ensures m < k
  {
    assert m == (m / k) * k + m % k;
  }

  lemma {:induction false} Pow2Monotone(a: nat, b: nat)
    requires a <= b
    ensures Pow2(a) <= Pow2(b)
  {
    if a < b { Pow2Monotone(a, b - 1); }
  }
}
