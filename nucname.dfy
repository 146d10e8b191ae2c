/**
 * The canonical nuclide id ZZZAAASSSS: the charge Z in front, then three digits of the
 * mass number A, then four digits of the excitation state S, and the integer arithmetic
 * that takes an id apart. The decomposition uses Python 2 integer `/` and `%`, which
 * round towards minus infinity; for the positive divisors used here Dafny's `/` and `%`
 * give the same results.
 */
module NuclideId {

  const ZFactor: int := 10000000
  const AFactor: int := 10000

  /** The Z-number, `nuc / 10000000`: the largest z with z * 10000000 <= nuc. */
  function ZNum(nuc: int): (z: int)
    ensures z * ZFactor <= nuc < (z + 1) * ZFactor
  {
    nuc / ZFactor
  }

  /** The A-number, `(nuc / 10000) % 1000`: the three digits before the state. */
  function ANum(nuc: int): (a: int)
    ensures 0 <= a < 1000
  {
    (nuc / AFactor) % 1000
  }

  /** The state, `nuc % 10000`: the last four digits. */
  function SNum(nuc: int): (s: int)
    ensures 0 <= s < AFactor
  {
    nuc % AFactor
  }

  /** The id with charge z, mass number a and state s. */
  function Id(z: int, a: int, s: int): int
  {
    z * ZFactor + a * AFactor + s
  }

  lemma MulAtLeast(e: int, d: int)
    requires e >= 1 && d > 0
    ensures e * d >= d
  {
    assert e * d == (e - 1) * d + d;
  }

  /** Division with a non-negative remainder below the divisor has one answer. */
  lemma {:induction false} DivModUnique(n: int, d: int, q: int, r: int)
    requires d > 0 && 0 <= r < d && n == q * d + r
    ensures n / d == q && n % d == r
  {
    var q0 := n / d;
    var r0 := n % d;
    var e := q - q0;
    assert e * d == r0 - r by {
      assert q * d - q0 * d == e * d;
    }
    if e > 0 {
      MulAtLeast(e, d);
    } else if e < 0 {
      MulAtLeast(-e, d);
    }
  }

  /** Taking an id apart and putting it back together gives the id again, for every
      integer. */
  lemma {:induction false} DecomposeRoundTrip(nuc: int)
    ensures Id(ZNum(nuc), ANum(nuc), SNum(nuc)) == nuc
  {
    var z := nuc / ZFactor;
    var low := nuc % ZFactor;
    assert nuc == z * ZFactor + low;
    var k := nuc / AFactor;
    var s := nuc % AFactor;
    assert nuc == k * AFactor + s;
    // the upper part of the id counted in units of 10000 is z * 1000 + a
    var a := low / AFactor;
    assert low == a * AFactor + low % AFactor;
    assert 0 <= a < 1000;
    DivModUnique(nuc, AFactor, z * 1000 + a, low % AFactor);
    assert k == z * 1000 + a;
    DivModUnique(k, 1000, z, a);
  }

  /** Composing an id from a charge, a three-digit mass number and a four-digit state
      and taking it apart gives the three numbers back. */
  lemma {:induction false} ComposeRoundTrip(z: int, a: int, s: int)
    requires 0 <= a < 1000 && 0 <= s < AFactor
    ensures ZNum(Id(z, a, s)) == z
    ensures ANum(Id(z, a, s)) == a
    ensures SNum(Id(z, a, s)) == s
  {
    var nuc := Id(z, a, s);
    DivModUnique(nuc, ZFactor, z, a * AFactor + s);
    DivModUnique(nuc, AFactor, z * 1000 + a, s);
    DivModUnique(z * 1000 + a, 1000, z, a);
  }

  /** Am-242m: id 942420001 has Z = 94, A = 242 and state 1. */
  lemma Americium242m()
    ensures ZNum(942420001) == 94 && ANum(942420001) == 242 && SNum(942420001) == 1
  {
    ComposeRoundTrip(94, 242, 1);
  }

  /** U-235: id 922350000 has Z = 92, A = 235 and the ground state. */
  lemma Uranium235()
    ensures ZNum(922350000) == 92 && ANum(922350000) == 235 && SNum(922350000) == 0
  {
    ComposeRoundTrip(92, 235, 0);
  }

  /** Every id of the documented range 10000000 < id < 2130000000 has a charge between
      1 and 212. */
  lemma ChargeRange(nuc: int)
    requires 10000000 < nuc < 2130000000
    ensures 1 <= ZNum(nuc) <= 212
  {
  }
}
