/**
  The test function Phi of the interpolation test driver: for a point X in
  D = 1, 2 or 3 dimensions it fills PhiVD with three functions and all
  their mixed first partials, packed as the interpolator expects them:
  function f owns the block of NVD = 2^D slots starting at f*NVD, and slot
  sigma of a block holds the derivative along exactly the axes whose bits
  are set in sigma (bit d for axis d, axis 0 varying fastest).

    f = 0: exp(-sum Alpha[d]*XBar[d])
    f = 1: exp(-sum Alpha[d]*XBar[d]^2)
    f = 2: the polynomial sum C[n2][n1][n0] x2^n2 x1^n1 x0^n0

  exp is the parameter exp; pow(x, n) for a whole n is exact repeated
  multiplication; the random coefficients are the parameter draws (the
  successive randU(-2,2) values after srandom(0)).
*/
module TInterpND {
  const Alpha: seq<real> := [0.2, 0.3, 0.4, 0.5]
  const X0: seq<real> := [-0.1, 0.2, 0.35, 0.5]

  /** 1 << d */
  function Pow2(d: nat): (r: nat)
    ensures r >= 1
  {
    if d == 0 then 1 else 2 * Pow2(d - 1)
  }

  /** Bit d of sigma: whether slot sigma is differentiated along axis d. */
  predicate Bit(sigma: nat, d: nat)
  {
    if d == 0 then sigma % 2 == 1 else Bit(sigma / 2, d - 1)
  }

  /** The sigmaVec that LOOP_OVER_IVECS hands out with index nVD: one 0/1 digit per axis, axis 0 fastest. */
  function SigmaVec(nVD: nat, dim: nat): (v: seq<nat>)
    ensures |v| == dim && forall d :: 0 <= d < dim ==> (v[d] == 1 <==> Bit(nVD, d))
  {
    seq(dim, (d: int) requires 0 <= d < dim => if Bit(nVD, d) then 1 else 0)
  }

  /** XBar[a] = X[a] - X0[a]. */
  function XBar(x: seq<real>, a: nat): real
    requires a < |x| && a < 4
  {
    x[a] - X0[a]
  }

  /** ExpArg[f] over the first d axes: the sum of Alpha*XBar (f = 0) or Alpha*XBar^2 (f = 1). */
  function ExpArg(f: nat, x: seq<real>, d: nat): real
    requires d <= |x| && d <= 4
  {
    if d == 0 then 0.0
    else ExpArg(f, x, d - 1) +
         (if f == 0 then Alpha[d - 1] * XBar(x, d - 1) else Alpha[d - 1] * XBar(x, d - 1) * XBar(x, d - 1))
  }

  /** What one differentiation along axis a multiplies function f by. */
  function Coef(f: nat, x: seq<real>, a: nat): real
    requires a < |x| && a < 4
  {
    if f == 0 then -1.0 * Alpha[a] else -2.0 * Alpha[a] * XBar(x, a)
  }

  /** Factor[f] for slot sigma over the first d axes: the product of Coef over the bits set. */
  function Factor(f: nat, x: seq<real>, sigma: nat, d: nat): real
    requires d <= |x| && d <= 4
  {
    if d == 0 then 1.0
    else Factor(f, x, sigma, d - 1) * (if Bit(sigma, d - 1) then Coef(f, x, d - 1) else 1.0)
  }

  /** The datum of function f (0 or 1) for slot sigma: Factor times the exponential factor. */
  function BlockEntry(f: nat, x: seq<real>, sigma: nat, dim: nat, expFac: real): real
    requires dim <= |x| && dim <= 4
  {
    Factor(f, x, sigma, dim) * expFac
  }

  lemma BlockEntryOf(f: nat, x: seq<real>, sigma: nat, dim: nat, expFac: real, factor: real)
    requires dim <= |x| && dim <= 4 && factor == Factor(f, x, sigma, dim)
    ensures BlockEntry(f, x, sigma, dim, expFac) == factor * expFac
  {
  }

  /** pow gives 1 for the exponent 0, whatever the base (as C's pow does). */
  ghost predicate PowZero(pow: (real, nat) -> real)
  {
    forall x: real :: pow(x, 0) == 1.0
  }

  /** The factor axis contributes to a derivative of x^n: x^n itself, or n*x^(n-1) (0 for n = 0) when differentiated. */
  function AxisFactor(pow: (real, nat) -> real, x: real, n: nat, differentiated: bool): real
  {
    if !differentiated then pow(x, n)
    else if n == 0 then 0.0
    else n as real * pow(x, n - 1)
  }

  /** The coordinates the polynomial is evaluated at: X on the first D axes, 1.0 beyond. */
  function XF(x: seq<real>, dim: nat): (xf: seq<real>)
    requires 1 <= dim <= |x|
    ensures |xf| == 3
  {
    [x[0], if dim > 1 then x[1] else 1.0, if dim > 2 then x[2] else 1.0]
  }

  /** The exponent ranges n2Max and n1Max: 4 on the axes the point has, 1 (the constant term) beyond. */
  function NMax(dim: nat, axis: nat): nat
  {
    if dim > axis then 4 else 1
  }

  /** The coefficient table's shape. */
  predicate Shaped(c: array3<real>)
  {
    c.Length0 == 4 && c.Length1 == 4 && c.Length2 == 4
  }

  /** The mixed partial of cv x2^n2 x1^n1 x0^n0 along exactly the axes set in k. */
  function MonomialPartial(pow: (real, nat) -> real, cv: real, xf: seq<real>, k: nat, n2: nat, n1: nat, n0: nat): real
    requires |xf| == 3
  {
    cv * AxisFactor(pow, xf[2], n2, Bit(k, 2)) * AxisFactor(pow, xf[1], n1, Bit(k, 1)) * AxisFactor(pow, xf[0], n0, Bit(k, 0))
  }

  /** The mixed partial of monomial (n2, n1, n0) of the table along the axes set in k. */
  function Term(c: array3<real>, pow: (real, nat) -> real, xf: seq<real>, k: nat, n2: nat, n1: nat, n0: nat): real
    requires Shaped(c) && |xf| == 3 && n2 < 4 && n1 < 4 && n0 < 4
    reads c
  {
    MonomialPartial(pow, c[n2, n1, n0], xf, k, n2, n1, n0)
  }

  /** The sum of Term over n0 < m. */
  function SumN0(c: array3<real>, pow: (real, nat) -> real, xf: seq<real>, k: nat, n2: nat, n1: nat, m: nat): real
    requires Shaped(c) && |xf| == 3 && n2 < 4 && n1 < 4 && m <= 4
    reads c
  {
    if m == 0 then 0.0 else SumN0(c, pow, xf, k, n2, n1, m - 1) + Term(c, pow, xf, k, n2, n1, m - 1)
  }

  /** The sum over n1 < m and all n0. */
  function SumN1(c: array3<real>, pow: (real, nat) -> real, xf: seq<real>, k: nat, n2: nat, m: nat): real
    requires Shaped(c) && |xf| == 3 && n2 < 4 && m <= 4
    reads c
  {
    if m == 0 then 0.0 else SumN1(c, pow, xf, k, n2, m - 1) + SumN0(c, pow, xf, k, n2, m - 1, 4)
  }

  /** The sum over n2 < m, n1 < n1Max and all n0. */
  function SumN2(c: array3<real>, pow: (real, nat) -> real, xf: seq<real>, k: nat, n1Max: nat, m: nat): real
    requires Shaped(c) && |xf| == 3 && n1Max <= 4 && m <= 4
    reads c
  {
    if m == 0 then 0.0 else SumN2(c, pow, xf, k, n1Max, m - 1) + SumN1(c, pow, xf, k, m - 1, n1Max)
  }

  /** Slot k of the polynomial block: the mixed partial along the axes set in k, summed over the monomials the point's dimension admits. */
  function MixedPartial(c: array3<real>, pow: (real, nat) -> real, x: seq<real>, dim: nat, k: nat): real
    requires Shaped(c) && 1 <= dim <= |x| && dim <= 3
    reads c
  {
    SumN2(c, pow, XF(x, dim), k, NMax(dim, 1), NMax(dim, 2))
  }

  lemma {:induction false} BitOfZero(d: nat)
    ensures !Bit(0, d)
  {
    if d > 0 {
      BitOfZero(d - 1);
    }
  }

  /** Slot 0 of functions 0 and 1 is the plain value: its factor is 1. */
  lemma {:induction false} FactorOfZero(f: nat, x: seq<real>, d: nat)
    requires d <= |x| && d <= 4
    ensures Factor(f, x, 0, d) == 1.0
  {
    if d > 0 {
      FactorOfZero(f, x, d - 1);
      BitOfZero(d - 1);
    }
  }

  /** A slot below 2^d differentiates along no axis at or beyond d. */
  lemma {:induction false} BitsBeyond(k: nat, d: nat, a: nat)
    requires k < Pow2(d) && a >= d
    ensures !Bit(k, a)
  {
    if d == 0 {
      assert k == 0;
      BitOfZero(a);
    } else if a > 0 {
      BitsBeyond(k / 2, d - 1, a - 1);
    } else {
      assert false;
    }
  }

  /** A monomial contributes nothing to a slot that differentiates along an axis where its exponent is 0. */
  lemma ZeroExponentVanishes(c: array3<real>, pow: (real, nat) -> real, xf: seq<real>, k: nat, n2: nat, n1: nat, n0: nat)
    requires Shaped(c) && |xf| == 3 && n2 < 4 && n1 < 4 && n0 < 4
    requires (Bit(k, 0) && n0 == 0) || (Bit(k, 1) && n1 == 0) || (Bit(k, 2) && n2 == 0)
    ensures Term(c, pow, xf, k, n2, n1, n0) == 0.0
  {
  }

  /**
    In fewer than three dimensions the axes the point lacks add only the
    constant term: their exponents are 0 (the ranges n2Max, n1Max are 1),
    their coordinate in XF is 1.0, and a slot below 2^D does not
    differentiate along them, so each contributes the factor 1 to every
    monomial's partial.
  */
  lemma ConstantBeyondDim(pow: (real, nat) -> real, x: seq<real>, dim: nat, k: nat, n2: nat, n1: nat)
    requires PowZero(pow) && 1 <= dim <= |x| && dim <= 3 && k < Pow2(dim)
    requires n2 < NMax(dim, 2) && n1 < NMax(dim, 1)
    ensures dim < 3 ==> AxisFactor(pow, XF(x, dim)[2], n2, Bit(k, 2)) == 1.0
    ensures dim < 2 ==> AxisFactor(pow, XF(x, dim)[1], n1, Bit(k, 1)) == 1.0
    ensures dim >= 2 ==> XF(x, dim)[1] == x[1]
    ensures dim >= 3 ==> XF(x, dim)[2] == x[2]
  {
    if dim < 3 {
      BitsBeyond(k, dim, 2);
      assert pow(1.0, 0) == 1.0;
    }
    if dim < 2 {
      BitsBeyond(k, dim, 1);
    }
  }

  /** Where function f's datum for slot sigma sits: blocks of NVD = 2^D slots, one per function. */
  function SlotIndex(dim: nat, f: nat, sigma: nat): nat
  {
    f * Pow2(dim) + sigma
  }

  /** The blocks do not overlap: each (f, sigma) with sigma < 2^D has its own slot, and the three blocks fill 3*2^D slots. */
  lemma {:induction false} SlotIndexBijective(dim: nat, f: nat, sigma: nat, f': nat, sigma': nat)
    requires sigma < Pow2(dim) && sigma' < Pow2(dim) && f < 3 && f' < 3
    ensures SlotIndex(dim, f, sigma) < 3 * Pow2(dim)
    ensures SlotIndex(dim, f, sigma) == SlotIndex(dim, f', sigma') ==> f == f' && sigma == sigma'
  {
    var n := Pow2(dim);
    assert SlotIndex(dim, f, sigma) == f * n + sigma;
    assert SlotIndex(dim, f', sigma') == f' * n + sigma';
    if f < f' {
      assert f * n + sigma < (f + 1) * n <= f' * n;
    } else if f' < f {
      assert f' * n + sigma' < (f' + 1) * n <= f * n;
    }
  }

  class PhiTest {
    /** The 4x4x4 table of random polynomial coefficients, shared by every call. */
    const c: array3<real>
    /** Whether the coefficient table has been filled yet. */
    var cInitialized: bool

    predicate Valid()
      reads this
    {
      Shaped(c)
    }

    constructor ()
      ensures Valid() && !cInitialized && fresh(c)
    {
      c := new real[4, 4, 4];
      cInitialized := false;
    }

    /** On the first call only: C[n2][n1][n0] = the (16*n2 + 4*n1 + n0)-th draw. */
    method InitCoefficients(draws: seq<real>)
      requires Valid() && |draws| == 64
      modifies this, c
      ensures Valid() && cInitialized
      ensures old(cInitialized) ==> unchanged(c)
      ensures !old(cInitialized) ==>
                forall n2, n1, n0 :: 0 <= n2 < 4 && 0 <= n1 < 4 && 0 <= n0 < 4 ==>
                  c[n2, n1, n0] == draws[16 * n2 + 4 * n1 + n0]
    {
      if cInitialized {
        return;
      }
      cInitialized := true;
      var n2 := 0;
      while n2 < 4
        modifies c
        invariant 0 <= n2 <= 4
        invariant forall i, j, k :: 0 <= i < n2 && 0 <= j < 4 && 0 <= k < 4 ==> c[i, j, k] == draws[16 * i + 4 * j + k]
      {
        var n1 := 0;
        while n1 < 4
          invariant 0 <= n1 <= 4
          invariant forall i, j, k :: 0 <= k < 4 && ((0 <= i < n2 && 0 <= j < 4) || (i == n2 && 0 <= j < n1)) ==>
                      c[i, j, k] == draws[16 * i + 4 * j + k]
        {
          var n0 := 0;
          while n0 < 4
            invariant 0 <= n0 <= 4
            invariant forall i, j, k ::
                        ((0 <= i < n2 && 0 <= j < 4 && 0 <= k < 4) || (i == n2 && 0 <= j < n1 && 0 <= k < 4) ||
                         (i == n2 && j == n1 && 0 <= k < n0)) ==>
                        c[i, j, k] == draws[16 * i + 4 * j + k]
          {
            c[n2, n1, n0] := draws[16 * n2 + 4 * n1 + n0];
            n0 := n0 + 1;
          }
          n1 := n1 + 1;
        }
        n2 := n2 + 1;
      }
    }

    /**
      Phi(X, &D, PhiVD): blocks 0 and 1 hold Factor times the exponential,
      block 2 the mixed partials of the polynomial; the coefficient table
      is drawn on the first call and kept; nothing past 3*2^D is touched.
    */
    method Phi(x: seq<real>, dim: nat, exp: real -> real, pow: (real, nat) -> real, draws: seq<real>, phiVD: array<real>)
      requires Valid() && 1 <= dim <= 3 && dim <= |x| && |draws| == 64
      requires 3 * Pow2(dim) <= phiVD.Length
      modifies this, c, phiVD
      ensures Valid() && cInitialized
      ensures old(cInitialized) ==> unchanged(c)
      ensures !old(cInitialized) ==>
                forall n2, n1, n0 :: 0 <= n2 < 4 && 0 <= n1 < 4 && 0 <= n0 < 4 ==>
                  c[n2, n1, n0] == draws[16 * n2 + 4 * n1 + n0]
      ensures forall sigma :: 0 <= sigma < Pow2(dim) ==>
                phiVD[SlotIndex(dim, 0, sigma)] == BlockEntry(0, x, sigma, dim, exp(-ExpArg(0, x, dim))) &&
                phiVD[SlotIndex(dim, 1, sigma)] == BlockEntry(1, x, sigma, dim, exp(-ExpArg(1, x, dim))) &&
                phiVD[SlotIndex(dim, 2, sigma)] == MixedPartial(c, pow, x, dim, sigma)
      ensures forall j :: 3 * Pow2(dim) <= j < phiVD.Length ==> phiVD[j] == old(phiVD[j])
    {
      var nvd := ExponentialBlocks(x, dim, exp, phiVD);
      InitCoefficients(draws);
      PolynomialBlock(x, dim, pow, phiVD);
    }

    /** The triple loop over the monomials and the writes of block 2. */
    method PolynomialBlock(x: seq<real>, dim: nat, pow: (real, nat) -> real, phiVD: array<real>)
      requires Valid() && 1 <= dim <= 3 && dim <= |x|
      requires 3 * Pow2(dim) <= phiVD.Length
      modifies phiVD
      ensures forall j :: 0 <= j < phiVD.Length && !(2 * Pow2(dim) <= j < 3 * Pow2(dim)) ==> phiVD[j] == old(phiVD[j])
      ensures forall k :: 0 <= k < Pow2(dim) ==> phiVD[SlotIndex(dim, 2, k)] == MixedPartial(c, pow, x, dim, k)
    {
      var nvd := Pow2(dim);
      var nf := 2;
      // clear the NVD entries of function nf before the sums
      var j := 0;
      while j < nvd
        invariant 0 <= j <= nvd
        invariant forall i :: 0 <= i < phiVD.Length && !(nf * nvd <= i < nf * nvd + j) ==> phiVD[i] == old(phiVD[i])
      {
        phiVD[nf * nvd + j] := 0.0;
        j := j + 1;
      }
      var phi2VD := new real[8](_ => 0.0);
      var n2Max := if dim >= 3 then 4 else 1;
      var n1Max := if dim >= 2 then 4 else 1;
      var xf := XF(x, dim);
      var n2 := 0;
      while n2 < n2Max
        modifies phi2VD
        invariant 0 <= n2 <= n2Max
        invariant forall k :: 0 <= k < 8 ==> phi2VD[k] == SumN2(c, pow, xf, k, n1Max, n2)
      {
        AddPlane(c, pow, xf, n2, n1Max, phi2VD);
        n2 := n2 + 1;
      }
      assert forall k :: 0 <= k < 8 ==> phi2VD[k] == MixedPartial(c, pow, x, dim, k);
      WriteBlock(dim, phi2VD, phiVD);
    }

    /** Blocks 0 and 1: XBar, the two exponents, then Factor times exp for every slot. */
    method ExponentialBlocks(x: seq<real>, dim: nat, exp: real -> real, phiVD: array<real>) returns (nvd: nat)
      requires 1 <= dim <= 3 && dim <= |x|
      requires 3 * Pow2(dim) <= phiVD.Length
      modifies phiVD
      ensures nvd == Pow2(dim)
      ensures forall j :: 2 * nvd <= j < phiVD.Length ==> phiVD[j] == old(phiVD[j])
      ensures forall sigma :: 0 <= sigma < nvd ==>
                phiVD[SlotIndex(dim, 0, sigma)] == BlockEntry(0, x, sigma, dim, exp(-ExpArg(0, x, dim))) &&
                phiVD[SlotIndex(dim, 1, sigma)] == BlockEntry(1, x, sigma, dim, exp(-ExpArg(1, x, dim)))
    {
      var xBar, expArg0, expArg1 := ExponentArguments(x, dim);
      nvd := Pow2(dim);
      var expFac0 := exp(-expArg0);
      var expFac1 := exp(-expArg1);
      var nVD := 0;
      while nVD < nvd
        modifies phiVD
        invariant 0 <= nVD <= nvd
        invariant forall j :: 2 * nvd <= j < phiVD.Length ==> phiVD[j] == old(phiVD[j])
        invariant forall sigma :: 0 <= sigma < nVD ==>
                    phiVD[SlotIndex(dim, 0, sigma)] == BlockEntry(0, x, sigma, dim, expFac0) &&
                    phiVD[SlotIndex(dim, 1, sigma)] == BlockEntry(1, x, sigma, dim, expFac1)
      {
        FillExpSlot(x, xBar, dim, nVD, expFac0, expFac1, phiVD);
        nVD := nVD + 1;
      }
    }
  }

  /** One pass of the loop over the slots: Factor0*ExpFac0 into block 0 and Factor1*ExpFac1 into block 1. */
  method FillExpSlot(x: seq<real>, xBar: array<real>, dim: nat, nVD: nat, expFac0: real, expFac1: real, phiVD: array<real>)
    requires 1 <= dim <= 3 && dim <= |x| && xBar.Length == dim && nVD < Pow2(dim) && 2 * Pow2(dim) <= phiVD.Length
    requires xBar != phiVD && forall a :: 0 <= a < dim ==> xBar[a] == XBar(x, a)
    modifies phiVD
    ensures phiVD[SlotIndex(dim, 0, nVD)] == BlockEntry(0, x, nVD, dim, expFac0)
    ensures phiVD[SlotIndex(dim, 1, nVD)] == BlockEntry(1, x, nVD, dim, expFac1)
    ensures forall j :: 0 <= j < phiVD.Length && j != SlotIndex(dim, 0, nVD) && j != SlotIndex(dim, 1, nVD) ==>
              phiVD[j] == old(phiVD[j])
  {
    var nvd := Pow2(dim);
    var factor0, factor1 := SlotFactors(x, xBar, dim, nVD);
    BlockEntryOf(0, x, nVD, dim, expFac0, factor0);
    BlockEntryOf(1, x, nVD, dim, expFac1, factor1);
    phiVD[0 * nvd + nVD] := factor0 * expFac0;
    phiVD[1 * nvd + nVD] := factor1 * expFac1;
  }

  /** The first loop of Phi: XBar[d] = X[d] - X0[d] and the two exponent sums. */
  method ExponentArguments(x: seq<real>, dim: nat) returns (xBar: array<real>, expArg0: real, expArg1: real)
    requires dim <= |x| && dim <= 4
    ensures fresh(xBar) && xBar.Length == dim
    ensures forall a :: 0 <= a < dim ==> xBar[a] == XBar(x, a)
    ensures expArg0 == ExpArg(0, x, dim) && expArg1 == ExpArg(1, x, dim)
  {
    xBar := new real[dim];
    expArg0, expArg1 := 0.0, 0.0;
    var d := 0;
    while d < dim
      modifies xBar
      invariant 0 <= d <= dim
      invariant forall a :: 0 <= a < d ==> xBar[a] == XBar(x, a)
      invariant expArg0 == ExpArg(0, x, d) && expArg1 == ExpArg(1, x, d)
    {
      xBar[d] := x[d] - X0[d];
      expArg0 := expArg0 + Alpha[d] * xBar[d];
      expArg1 := expArg1 + Alpha[d] * xBar[d] * xBar[d];
      d := d + 1;
    }
  }

  /** The inner loop over the axes: Factor0 and Factor1 of slot nVD. */
  method SlotFactors(x: seq<real>, xBar: array<real>, dim: nat, nVD: nat) returns (factor0: real, factor1: real)
    requires dim <= |x| && dim <= 4 && xBar.Length == dim
    requires forall a :: 0 <= a < dim ==> xBar[a] == XBar(x, a)
    ensures factor0 == Factor(0, x, nVD, dim) && factor1 == Factor(1, x, nVD, dim)
  {
    var sigmaVec := SigmaVec(nVD, dim);
    factor0, factor1 := 1.0, 1.0;
    var d := 0;
    while d < dim
      invariant 0 <= d <= dim
      invariant factor0 == Factor(0, x, nVD, d) && factor1 == Factor(1, x, nVD, d)
    {
      if sigmaVec[d] == 1 {
        factor0 := factor0 * (-1.0 * Alpha[d]);
        factor1 := factor1 * (-2.0 * Alpha[d] * xBar[d]);
      }
      d := d + 1;
    }
  }

  /** The loop over n1 < n1Max for one n2: every Phi2VD[k] gains the terms of that plane. */
  method AddPlane(c: array3<real>, pow: (real, nat) -> real, xf: seq<real>, n2: nat, n1Max: nat, phi2VD: array<real>)
    requires Shaped(c) && |xf| == 3 && n2 < 4 && n1Max <= 4 && phi2VD.Length == 8
    modifies phi2VD
    ensures forall k :: 0 <= k < 8 ==> phi2VD[k] == old(phi2VD[k]) + SumN1(c, pow, xf, k, n2, n1Max)
  {
    var n1 := 0;
    while n1 < n1Max
      invariant 0 <= n1 <= n1Max
      invariant forall k :: 0 <= k < 8 ==> phi2VD[k] == old(phi2VD[k]) + SumN1(c, pow, xf, k, n2, n1)
    {
      AddRow(c, pow, xf, n2, n1, phi2VD);
      n1 := n1 + 1;
    }
  }

  /** The innermost loop over n0 < 4 for one (n2, n1): every Phi2VD[k] gains the terms of that row. */
  method AddRow(c: array3<real>, pow: (real, nat) -> real, xf: seq<real>, n2: nat, n1: nat, phi2VD: array<real>)
    requires Shaped(c) && |xf| == 3 && n2 < 4 && n1 < 4 && phi2VD.Length == 8
    modifies phi2VD
    ensures forall k :: 0 <= k < 8 ==> phi2VD[k] == old(phi2VD[k]) + SumN0(c, pow, xf, k, n2, n1, 4)
  {
    var n0 := 0;
    while n0 < 4
      invariant 0 <= n0 <= 4
      invariant forall k :: 0 <= k < 8 ==> phi2VD[k] == old(phi2VD[k]) + SumN0(c, pow, xf, k, n2, n1, n0)
    {
      AddMonomial(c, pow, xf, n2, n1, n0, phi2VD);
      n0 := n0 + 1;
    }
  }

  /** One pass of the innermost loop body: every Phi2VD[k] gains Term k of monomial (n2, n1, n0). */
  method AddMonomial(c: array3<real>, pow: (real, nat) -> real, xf: seq<real>, n2: nat, n1: nat, n0: nat, phi2VD: array<real>)
    requires Shaped(c) && |xf| == 3 && n2 < 4 && n1 < 4 && n0 < 4 && phi2VD.Length == 8
    modifies phi2VD
    ensures forall k :: 0 <= k < 8 ==> phi2VD[k] == old(phi2VD[k]) + Term(c, pow, xf, k, n2, n1, n0)
  {
    var cv := c[n2, n1, n0];
    forall k | 0 <= k < 8
      ensures Increment(k, pow, cv, xf, n2, n1, n0) == Term(c, pow, xf, k, n2, n1, n0)
    {
      IncrementIsPartial(k, pow, cv, xf, n2, n1, n0);
    }
    phi2VD[0] := phi2VD[0] + Increment(0, pow, cv, xf, n2, n1, n0);
    phi2VD[1] := phi2VD[1] + Increment(1, pow, cv, xf, n2, n1, n0);
    phi2VD[2] := phi2VD[2] + Increment(2, pow, cv, xf, n2, n1, n0);
    phi2VD[3] := phi2VD[3] + Increment(3, pow, cv, xf, n2, n1, n0);
    phi2VD[4] := phi2VD[4] + Increment(4, pow, cv, xf, n2, n1, n0);
    phi2VD[5] := phi2VD[5] + Increment(5, pow, cv, xf, n2, n1, n0);
    phi2VD[6] := phi2VD[6] + Increment(6, pow, cv, xf, n2, n1, n0);
    phi2VD[7] := phi2VD[7] + Increment(7, pow, cv, xf, n2, n1, n0);
  }

  /**
    The increment of Phi2VD[k] for coefficient cv and exponents (n2, n1,
    n0), written as the driver writes it: the exponents of the
    differentiated axes in front, each of their powers lowered by one, and
    0 when one of those exponents is 0.
  */
  function Increment(k: nat, pow: (real, nat) -> real, cv: real, xf: seq<real>, n2: nat, n1: nat, n0: nat): real
    requires k < 8 && |xf| == 3
  {
    var p2, p1, p0 := pow(xf[2], n2), pow(xf[1], n1), pow(xf[0], n0);
    var q2 := if n2 == 0 then 0.0 else pow(xf[2], n2 - 1);
    var q1 := if n1 == 0 then 0.0 else pow(xf[1], n1 - 1);
    var q0 := if n0 == 0 then 0.0 else pow(xf[0], n0 - 1);
    var r2, r1, r0 := n2 as real, n1 as real, n0 as real;
    if k == 0 then cv * p2 * p1 * p0
    else if k == 1 then (if n0 == 0 then 0.0 else r0 * cv * p2 * p1 * q0)
    else if k == 2 then (if n1 == 0 then 0.0 else r1 * cv * p2 * q1 * p0)
    else if k == 3 then (if n0 * n1 == 0 then 0.0 else r0 * r1 * cv * p2 * q1 * q0)
    else if k == 4 then (if n2 == 0 then 0.0 else r2 * cv * q2 * p1 * p0)
    else if k == 5 then (if n0 * n2 == 0 then 0.0 else r2 * r0 * cv * q2 * p1 * q0)
    else if k == 6 then (if n1 * n2 == 0 then 0.0 else r2 * r1 * cv * q2 * q1 * p0)
    else (if n0 * n1 * n2 == 0 then 0.0 else r2 * r0 * r1 * cv * q2 * q1 * q0)
  }

  /** Each increment is the mixed partial of the monomial along exactly the axes set in k. */
  lemma IncrementIsPartial(k: nat, pow: (real, nat) -> real, cv: real, xf: seq<real>, n2: nat, n1: nat, n0: nat)
    requires k < 8 && |xf| == 3
    ensures Increment(k, pow, cv, xf, n2, n1, n0) == MonomialPartial(pow, cv, xf, k, n2, n1, n0)
  {
    if k == 1 {
      SlotIsPartial1(pow, cv, xf, n2, n1, n0);
    } else if k == 2 {
      SlotIsPartial2(pow, cv, xf, n2, n1, n0);
    } else if k == 3 {
      SlotIsPartial3(pow, cv, xf, n2, n1, n0);
    } else if k == 4 {
      SlotIsPartial4(pow, cv, xf, n2, n1, n0);
    } else if k == 5 {
      SlotIsPartial5(pow, cv, xf, n2, n1, n0);
    } else if k == 6 {
      SlotIsPartial6(pow, cv, xf, n2, n1, n0);
    } else {
      SlotIsPartial7(pow, cv, xf, n2, n1, n0);
    }
  }

  lemma SlotIsPartial1(pow: (real, nat) -> real, cv: real, xf: seq<real>, n2: nat, n1: nat, n0: nat)
    requires |xf| == 3
    ensures Increment(1, pow, cv, xf, n2, n1, n0) == MonomialPartial(pow, cv, xf, 1, n2, n1, n0)
  {
    if n0 != 0 {
      var q0, r0 := pow(xf[0], n0 - 1), n0 as real;
      var p1 := pow(xf[1], n1);
      var p2 := pow(xf[2], n2);
      assert MonomialPartial(pow, cv, xf, 1, n2, n1, n0) == cv * p2 * p1 * (r0 * q0);
      assert cv * p2 * p1 * (r0 * q0) == r0 * cv * p2 * p1 * q0;
    }
  }

  lemma SlotIsPartial2(pow: (real, nat) -> real, cv: real, xf: seq<real>, n2: nat, n1: nat, n0: nat)
    requires |xf| == 3
    ensures Increment(2, pow, cv, xf, n2, n1, n0) == MonomialPartial(pow, cv, xf, 2, n2, n1, n0)
  {
    if n1 != 0 {
      var p0 := pow(xf[0], n0);
      var q1, r1 := pow(xf[1], n1 - 1), n1 as real;
      var p2 := pow(xf[2], n2);
      assert MonomialPartial(pow, cv, xf, 2, n2, n1, n0) == cv * p2 * (r1 * q1) * p0;
      assert cv * p2 * (r1 * q1) * p0 == r1 * cv * p2 * q1 * p0;
    }
  }

  lemma SlotIsPartial3(pow: (real, nat) -> real, cv: real, xf: seq<real>, n2: nat, n1: nat, n0: nat)
    requires |xf| == 3
    ensures Increment(3, pow, cv, xf, n2, n1, n0) == MonomialPartial(pow, cv, xf, 3, n2, n1, n0)
  {
    if n0 == 0 || n1 == 0 {
      assert n0 * n1 == 0;
    } else {
      var q0, r0 := pow(xf[0], n0 - 1), n0 as real;
      var q1, r1 := pow(xf[1], n1 - 1), n1 as real;
      var p2 := pow(xf[2], n2);
      assert n0 * n1 != 0;
      assert MonomialPartial(pow, cv, xf, 3, n2, n1, n0) == cv * p2 * (r1 * q1) * (r0 * q0);
      assert cv * p2 * (r1 * q1) * (r0 * q0) == r0 * r1 * cv * p2 * q1 * q0;
    }
  }

  lemma SlotIsPartial4(pow: (real, nat) -> real, cv: real, xf: seq<real>, n2: nat, n1: nat, n0: nat)
    requires |xf| == 3
    ensures Increment(4, pow, cv, xf, n2, n1, n0) == MonomialPartial(pow, cv, xf, 4, n2, n1, n0)
  {
    if n2 != 0 {
      var p0 := pow(xf[0], n0);
      var p1 := pow(xf[1], n1);
      var q2, r2 := pow(xf[2], n2 - 1), n2 as real;
      assert MonomialPartial(pow, cv, xf, 4, n2, n1, n0) == cv * (r2 * q2) * p1 * p0;
      assert cv * (r2 * q2) * p1 * p0 == r2 * cv * q2 * p1 * p0;
    }
  }

  lemma SlotIsPartial5(pow: (real, nat) -> real, cv: real, xf: seq<real>, n2: nat, n1: nat, n0: nat)
    requires |xf| == 3
    ensures Increment(5, pow, cv, xf, n2, n1, n0) == MonomialPartial(pow, cv, xf, 5, n2, n1, n0)
  {
    if n0 == 0 || n2 == 0 {
      assert n0 * n2 == 0;
    } else {
      var q0, r0 := pow(xf[0], n0 - 1), n0 as real;
      var p1 := pow(xf[1], n1);
      var q2, r2 := pow(xf[2], n2 - 1), n2 as real;
      assert n0 * n2 != 0;
      assert MonomialPartial(pow, cv, xf, 5, n2, n1, n0) == cv * (r2 * q2) * p1 * (r0 * q0);
      assert cv * (r2 * q2) * p1 * (r0 * q0) == r2 * r0 * cv * q2 * p1 * q0;
    }
  }

  lemma SlotIsPartial6(pow: (real, nat) -> real, cv: real, xf: seq<real>, n2: nat, n1: nat, n0: nat)
    requires |xf| == 3
    ensures Increment(6, pow, cv, xf, n2, n1, n0) == MonomialPartial(pow, cv, xf, 6, n2, n1, n0)
  {
    if n1 == 0 || n2 == 0 {
      assert n1 * n2 == 0;
    } else {
      var p0 := pow(xf[0], n0);
      var q1, r1 := pow(xf[1], n1 - 1), n1 as real;
      var q2, r2 := pow(xf[2], n2 - 1), n2 as real;
      assert n1 * n2 != 0;
      assert MonomialPartial(pow, cv, xf, 6, n2, n1, n0) == cv * (r2 * q2) * (r1 * q1) * p0;
      assert cv * (r2 * q2) * (r1 * q1) * p0 == r2 * r1 * cv * q2 * q1 * p0;
    }
  }

  lemma SlotIsPartial7(pow: (real, nat) -> real, cv: real, xf: seq<real>, n2: nat, n1: nat, n0: nat)
    requires |xf| == 3
    ensures Increment(7, pow, cv, xf, n2, n1, n0) == MonomialPartial(pow, cv, xf, 7, n2, n1, n0)
  {
    if n0 == 0 || n1 == 0 || n2 == 0 {
      assert n0 * n1 * n2 == 0;
    } else {
      var q0, r0 := pow(xf[0], n0 - 1), n0 as real;
      var q1, r1 := pow(xf[1], n1 - 1), n1 as real;
      var q2, r2 := pow(xf[2], n2 - 1), n2 as real;
      assert n0 * n1 * n2 != 0;
      assert MonomialPartial(pow, cv, xf, 7, n2, n1, n0) == cv * (r2 * q2) * (r1 * q1) * (r0 * q0);
      assert cv * (r2 * q2) * (r1 * q1) * (r0 * q0) == r2 * r0 * r1 * cv * q2 * q1 * q0;
    }
  }

  /** The bits of the eight slots written out. */
  lemma SlotBits(k: nat)
    requires k < 8
    ensures Bit(k, 0) <==> k % 2 == 1
    ensures Bit(k, 1) <==> k in {2, 3, 6, 7}
    ensures Bit(k, 2) <==> k >= 4
  {
  }

  /** PhiVD[2*NVD + k] = Phi2VD[k] for k < 2, then k < 4 unless D == 1, then k < 8 unless D == 2. */
  method WriteBlock(dim: nat, phi2VD: array<real>, phiVD: array<real>)
    requires 1 <= dim <= 3 && phi2VD.Length == 8 && 3 * Pow2(dim) <= phiVD.Length
    modifies phiVD
    ensures forall j :: 0 <= j < phiVD.Length && !(2 * Pow2(dim) <= j < 3 * Pow2(dim)) ==> phiVD[j] == old(phiVD[j])
    ensures forall k :: 0 <= k < Pow2(dim) ==> phiVD[SlotIndex(dim, 2, k)] == phi2VD[k]
  {
    var nvd := Pow2(dim);
    phiVD[2 * nvd + 0] := phi2VD[0];
    phiVD[2 * nvd + 1] := phi2VD[1];
    if dim == 1 {
      return;
    }
    phiVD[2 * nvd + 2] := phi2VD[2];
    phiVD[2 * nvd + 3] := phi2VD[3];
    if dim == 2 {
      return;
    }
    phiVD[2 * nvd + 4] := phi2VD[4];
    phiVD[2 * nvd + 5] := phi2VD[5];
    phiVD[2 * nvd + 6] := phi2VD[6];
    phiVD[2 * nvd + 7] := phi2VD[7];
  }
}
