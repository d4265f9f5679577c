/**
  The interpolation side of the layered-substrate Green functions: the
  callback that feeds an interpolation table (PhiVDFunc_ScalarGFs), the
  gates that decide whether a lookup may use the table
  (GetScalarGFs_Interp, CheckScalarGFInterpolator) and the routine that
  builds it (InitScalarGFInterpolator).

  GetScalarGFs_MOI itself (the quadrature over q) is the parameter gf:
  gf(Rho, z, Options) is the V vector it fills, MaxSlots entries long.
  The table (InterpND) is seen only through its dimension, its function
  count and the box its grids span.
*/
module SubstrateInterp {
  import opened Text
  import opened MOI

  /** The user data of PhiVDFunc_ScalarGFs, less the substrate pointer. */
  datatype PhiVDData = PhiVDData(omega: Complex, dimension: nat, zFixed: real, options: ScalarGFOptions)

  /** The per-axis counts the table passes: 1 (the value) or 2 (the value and the first derivative). */
  predicate ValidCounts(dRhoZMax: seq<nat>)
  {
    1 <= |dRhoZMax| <= 2 && forall a :: 0 <= a < |dRhoZMax| ==> dRhoZMax[a] == 1 || dRhoZMax[a] == 2
  }

  /** NumVDs as the callback computes it: the product of the per-axis counts. */
  function CountVDs(dRhoZMax: seq<nat>): nat
    requires |dRhoZMax| >= 1
  {
    dRhoZMax[0] * (if |dRhoZMax| > 1 then dRhoZMax[1] else 1)
  }

  /** d/dRho when axis 0 carries a derivative, d/dz when there is an axis 1 and it does. */
  function DerivativesFor(dRhoZMax: seq<nat>): set<Derivative>
    requires |dRhoZMax| >= 1
  {
    (if dRhoZMax[0] == 2 then {DRho} else {}) + (if |dRhoZMax| > 1 && dRhoZMax[1] == 2 then {Dz} else {})
  }

  /** The options of the evaluation: the stored ones with NeedDerivatives replaced. */
  function CallOptions(data: PhiVDData, dRhoZMax: seq<nat>): ScalarGFOptions
    requires |dRhoZMax| >= 1
  {
    data.options.(needDerivatives := DerivativesFor(dRhoZMax))
  }

  /** The z of the evaluation point: the second coordinate, or zFixed for a one-dimensional table. */
  function ZOf(data: PhiVDData, rhoZ: seq<real>): real
    requires |rhoZ| >= 1
  {
    if |rhoZ| > 1 then rhoZ[1] else data.zFixed
  }

  /** zFixed as InitScalarGFInterpolator stores it: the smaller of |ZMin| and |ZMax|. */
  function ZFixedOf(zMin: real, zMax: real): (z: real)
    ensures z >= 0.0 && (z == zMin || z == -zMin || z == zMax || z == -zMax)
    ensures (z <= zMin || z <= -zMin) && (z <= zMax || z <= -zMax)
  {
    var a := if zMin < 0.0 then -zMin else zMin;
    var b := if zMax < 0.0 then -zMax else zMax;
    if a < b then a else b
  }

  /**
    For a one-dimensional table below the plane z = 0 (ZMin = ZMax < 0), the
    z the callback data carries is not the z the table is recorded for
    (zSGFI = ZMin): it has the opposite sign.
  */
  lemma ZFixedNotTableZ(zMin: real)
    requires zMin < 0.0
    ensures ZFixedOf(zMin, zMin) == -zMin && ZFixedOf(zMin, zMin) != zMin
  {
  }

  /** The number of derivative combinations the options ask for is the callback's NumVDs. */
  lemma CountVDsMatches(data: PhiVDData, dRhoZMax: seq<nat>)
    requires ValidCounts(dRhoZMax)
    ensures NumVDs(CallOptions(data, dRhoZMax)) == CountVDs(dRhoZMax)
    ensures CountVDs(dRhoZMax) == 1 || CountVDs(dRhoZMax) == 2 || CountVDs(dRhoZMax) == 4
  {
    var d := DerivativesFor(dRhoZMax);
    assert DRho in d <==> dRhoZMax[0] == 2;
    assert Dz in d <==> |dRhoZMax| > 1 && dRhoZMax[1] == 2;
  }

  /*
    Reading the arguments as written (MOI.cc:573 and 576): dRhoZMax[1]
    and RhoZ[1] are read whatever the dimension, so for a one-dimensional
    table both reads fall past the end of their vectors.
  */

  /** The z and the derivative flags as lines 573-576 take them (None: a read past the end). */
  function CallArgumentsAsWritten(rhoZ: seq<real>, dRhoZMax: seq<nat>): (r: Option<(real, set<Derivative>)>)
    requires |rhoZ| >= 1 && |dRhoZMax| >= 1
    ensures r.Some? <==> |rhoZ| >= 2 && |dRhoZMax| >= 2
  {
    if |rhoZ| < 2 || |dRhoZMax| < 2 then None
    else Some((rhoZ[1], (if dRhoZMax[0] == 2 then {DRho} else {}) + (if dRhoZMax[1] == 2 then {Dz} else {})))
  }

  /** For a one-dimensional table the reads as written leave their vectors; for two dimensions they agree with ZOf and DerivativesFor. */
  lemma CallArgumentsAsWrittenWrong(data: PhiVDData, rhoZ: seq<real>, dRhoZMax: seq<nat>)
    requires |rhoZ| == |dRhoZMax| && ValidCounts(dRhoZMax)
    ensures |rhoZ| == 1 ==> CallArgumentsAsWritten(rhoZ, dRhoZMax).None?
    ensures |rhoZ| == 2 ==> CallArgumentsAsWritten(rhoZ, dRhoZMax) == Some((ZOf(data, rhoZ), DerivativesFor(dRhoZMax)))
  {
  }

  /** The point lies on the axis (Rho = 0 and, in two dimensions, z = 0). */
  predicate OnAxis(rhoZ: seq<real>)
    requires |rhoZ| >= 1
  {
    rhoZ[0] == 0.0 && (|rhoZ| == 1 || rhoZ[1] == 0.0)
  }

  /** -V2 + 2*V1: the straight line through the samples at 2h and h, read off at 0. */
  function Extrapolated(v2: Complex, v1: Complex): (r: Complex)
    ensures Add(r, v2) == Complex(2.0 * v1.re, 2.0 * v1.im)
  {
    Complex(-v2.re + 2.0 * v1.re, -v2.im + 2.0 * v1.im)
  }

  /** The extrapolation recovers the value at 0 of anything linear along the ray. */
  lemma ExtrapolationExactOnLines(a: Complex, b: Complex, h: real)
    ensures Extrapolated(Add(a, Mul(Complex(2.0 * h, 0.0), b)), Add(a, Mul(Complex(h, 0.0), b))) == a
  {
    var p1 := Mul(Complex(h, 0.0), b);
    var p2 := Mul(Complex(2.0 * h, 0.0), b);
    assert p2.re == 2.0 * p1.re && p2.im == 2.0 * p1.im;
  }

  /** gf always returns a whole V vector. */
  ghost predicate Fills(gf: (real, real, ScalarGFOptions) -> seq<Complex>)
  {
    forall r: real, z: real, o: ScalarGFOptions :: |gf(r, z, o)| == MaxSlots
  }

  lemma FillsAt(gf: (real, real, ScalarGFOptions) -> seq<Complex>, r: real, z: real, o: ScalarGFOptions)
    requires Fills(gf)
    ensures |gf(r, z, o)| == MaxSlots
  {
  }

  /**
    V as the callback holds it before the relayout: the direct evaluation
    and, on the axis, every derivative slot (nVD >= 1) replaced by the
    extrapolation from Rho = 2e-4 and 1e-4 (z scaled alike in two
    dimensions, 0 in one).
  */
  function SGFValues(data: PhiVDData, rhoZ: seq<real>, dRhoZMax: seq<nat>,
                     gf: (real, real, ScalarGFOptions) -> seq<Complex>): (v: seq<Complex>)
    requires |rhoZ| >= 1 && |dRhoZMax| >= 1
    requires Fills(gf)
    ensures |v| == MaxSlots
  {
    var o := CallOptions(data, dRhoZMax);
    var direct := gf(rhoZ[0], ZOf(data, rhoZ), o);
    if !OnAxis(rhoZ) then direct
    else
      var zScale := if data.dimension == 1 then 0.0 else 1.0;
      var v2 := gf(0.0002, 0.0002 * zScale, o);
      var v1 := gf(0.0001, 0.0001 * zScale, o);
      seq(MaxSlots, (i: int) requires 0 <= i < MaxSlots =>
        if NumSGFs(o.ppIsOnly) <= i < NumSGFVDs(o) then Extrapolated(v2[i], v1[i]) else direct[i])
  }

  /** Where datum (nVD, nSGF) sits in V: nVD*NumSGFs + nSGF, with the two possible values of NumSGFs. */
  function VIndex(pp: bool, nVD: nat, s: nat): nat
  {
    if pp then 2 * nVD + s else 5 * nVD + s
  }

  /** Where value/derivative nVD of real function f sits in PhiVD: f*NumVDs + nVD, with the three possible values of NumVDs. */
  function PhiIndex(numVDs: nat, f: nat, nVD: nat): nat
    requires numVDs == 1 || numVDs == 2 || numVDs == 4
  {
    if numVDs == 1 then f + nVD else if numVDs == 2 then 2 * f + nVD else 4 * f + nVD
  }

  /** The number of PhiVD entries filled: 2*NumSGFs*NumVDs, one past the last PhiIndex. */
  function PhiCount(pp: bool, numVDs: nat): nat
    requires numVDs == 1 || numVDs == 2 || numVDs == 4
  {
    PhiIndex(numVDs, 2 * NumSGFs(pp), 0)
  }

  /** The real (part 0) or imaginary (part 1) part. */
  function Component(c: Complex, part: nat): real
  {
    if part == 0 then c.re else c.im
  }

  /**
    The relayout is a bijection from the pairs (f, nVD), f < 2*NumSGFs and
    nVD < NumVDs, onto the first 2*NumSGFs*NumVDs entries of PhiVD: each
    pair lands inside, distinct pairs land apart, and every entry is hit.
  */
  lemma PhiLayout(pp: bool, numVDs: nat)
    requires numVDs == 1 || numVDs == 2 || numVDs == 4
    ensures forall f: nat, n: nat :: f < 2 * NumSGFs(pp) && n < numVDs ==>
              PhiIndex(numVDs, f, n) < PhiCount(pp, numVDs)
    ensures forall f: nat, n: nat, f': nat, n': nat ::
              n < numVDs && n' < numVDs && PhiIndex(numVDs, f, n) == PhiIndex(numVDs, f', n') ==> f == f' && n == n'
    ensures forall j: nat :: j < PhiCount(pp, numVDs) ==>
              j / numVDs < 2 * NumSGFs(pp) && PhiIndex(numVDs, j / numVDs, j % numVDs) == j
  {
    forall f: nat, n: nat, f': nat, n': nat | n < numVDs && n' < numVDs && PhiIndex(numVDs, f, n) == PhiIndex(numVDs, f', n')
      ensures f == f' && n == n'
    {
      PhiIndexInjective(numVDs, f, n, f', n');
    }
    forall f: nat, n: nat | f < 2 * NumSGFs(pp) && n < numVDs
      ensures PhiIndex(numVDs, f, n) < PhiCount(pp, numVDs)
    {
      PhiIndexBound(pp, numVDs, f, n);
    }
    forall j: nat | j < PhiCount(pp, numVDs)
      ensures j / numVDs < 2 * NumSGFs(pp) && PhiIndex(numVDs, j / numVDs, j % numVDs) == j
    {
      PhiIndexOnto(pp, numVDs, j);
    }
  }

  lemma PhiIndexInjective(numVDs: nat, f: nat, n: nat, f': nat, n': nat)
    requires numVDs == 1 || numVDs == 2 || numVDs == 4
    requires n < numVDs && n' < numVDs && PhiIndex(numVDs, f, n) == PhiIndex(numVDs, f', n')
    ensures f == f' && n == n'
  {
  }

  lemma PhiIndexBound(pp: bool, numVDs: nat, f: nat, n: nat)
    requires numVDs == 1 || numVDs == 2 || numVDs == 4
    requires f < 2 * NumSGFs(pp) && n < numVDs
    ensures PhiIndex(numVDs, f, n) < PhiCount(pp, numVDs)
  {
  }

  lemma PhiIndexOnto(pp: bool, numVDs: nat, j: nat)
    requires numVDs == 1 || numVDs == 2 || numVDs == 4
    requires j < PhiCount(pp, numVDs)
    ensures j / numVDs < 2 * NumSGFs(pp) && PhiIndex(numVDs, j / numVDs, j % numVDs) == j
  {
  }

  /** V's slot VIndex(pp, nVD, s) decodes back to (nVD, s) with the options' SgfOf and VdOf. */
  lemma VIndexDecodes(o: ScalarGFOptions, nVD: nat, s: nat)
    requires s < NumSGFs(o.ppIsOnly)
    ensures SgfOf(o, VIndex(o.ppIsOnly, nVD, s)) == s && VdOf(o, VIndex(o.ppIsOnly, nVD, s)) == nVD
  {
  }

  /** Every slot i is VIndex of its own VdOf and SgfOf. */
  lemma VIndexEncodes(o: ScalarGFOptions, i: nat)
    ensures VIndex(o.ppIsOnly, VdOf(o, i), SgfOf(o, i)) == i && SgfOf(o, i) < NumSGFs(o.ppIsOnly)
  {
  }

  /** Slot i was reached by the extrapolation loop before (nSGF, nVD). */
  predicate ExtrapolatedSoFar(o: ScalarGFOptions, numVDs: nat, nSGF: nat, nVD: nat, i: nat)
  {
    1 <= VdOf(o, i) < numVDs && (SgfOf(o, i) < nSGF || (SgfOf(o, i) == nSGF && VdOf(o, i) < nVD))
  }

  /** The derivative slots lie between NumSGFs and NumSGFs*NumVDs. */
  lemma DerivativeSlots(o: ScalarGFOptions, numVDs: nat, i: nat)
    requires numVDs == NumVDs(o)
    ensures ExtrapolatedSoFar(o, numVDs, NumSGFs(o.ppIsOnly), 0, i) <==> NumSGFs(o.ppIsOnly) <= i < NumSGFVDs(o)
  {
  }

  /**
    The small-Rho loop: for every Green function and every derivative
    combination but the value itself, V := -V2 + 2*V1.
  */
  method ExtrapolateOnAxis(o: ScalarGFOptions, numVDs: nat, v: array<Complex>, v2: seq<Complex>, v1: seq<Complex>)
    requires numVDs == NumVDs(o)
    requires v.Length == MaxSlots && |v2| == MaxSlots && |v1| == MaxSlots
    modifies v
    ensures forall i :: 0 <= i < MaxSlots ==>
              v[i] == if NumSGFs(o.ppIsOnly) <= i < NumSGFVDs(o) then Extrapolated(v2[i], v1[i]) else old(v[i])
  {
    var numSGFs := NumSGFs(o.ppIsOnly);
    var nSGF := 0;
    while nSGF < numSGFs
      invariant nSGF <= numSGFs
      invariant forall i :: 0 <= i < MaxSlots ==>
                  v[i] == if ExtrapolatedSoFar(o, numVDs, nSGF, 0, i) then Extrapolated(v2[i], v1[i]) else old(v[i])
    {
      var nVD := 0;
      while nVD < numVDs
        invariant nVD <= numVDs
        invariant forall i :: 0 <= i < MaxSlots ==>
                    v[i] == if ExtrapolatedSoFar(o, numVDs, nSGF, nVD, i) then Extrapolated(v2[i], v1[i]) else old(v[i])
      {
        if nVD != 0 {
          var index := nVD * numSGFs + nSGF;
          assert index == VIndex(o.ppIsOnly, nVD, nSGF) && index < MaxSlots;
          VIndexDecodes(o, nVD, nSGF);
          v[index] := Extrapolated(v2[index], v1[index]);
        }
        nVD := nVD + 1;
      }
      nSGF := nSGF + 1;
    }
    forall i | 0 <= i < MaxSlots
      ensures ExtrapolatedSoFar(o, numVDs, numSGFs, 0, i) <==> numSGFs <= i < NumSGFVDs(o)
    {
      DerivativeSlots(o, numVDs, i);
    }
  }

  /** Datum (nVD, nSGF) of V sits in phi as the table wants it: its real part at PhiIndex(2*nSGF, nVD), its imaginary part at PhiIndex(2*nSGF+1, nVD). */
  predicate Laid(pp: bool, numVDs: nat, v: seq<Complex>, phi: seq<real>, s: nat, n: nat)
    requires numVDs == 1 || numVDs == 2 || numVDs == 4
  {
    VIndex(pp, n, s) < |v| && PhiIndex(numVDs, 2 * s + 1, n) < |phi| &&
    phi[PhiIndex(numVDs, 2 * s, n)] == v[VIndex(pp, n, s)].re &&
    phi[PhiIndex(numVDs, 2 * s + 1, n)] == v[VIndex(pp, n, s)].im
  }

  /**
    The relayout loop: PhiVD[(2*nSGF+0)*NumVDs + nVD] = real(V[nVD*NumSGFs +
    nSGF]) and PhiVD[(2*nSGF+1)*NumVDs + nVD] = imag(...).
  */
  method Relayout(pp: bool, numVDs: nat, v: seq<Complex>, phiVD: array<real>)
    requires numVDs == 1 || numVDs == 2 || numVDs == 4
    requires |v| == MaxSlots && PhiCount(pp, numVDs) <= phiVD.Length
    modifies phiVD
    ensures forall s: nat, n: nat :: s < NumSGFs(pp) && n < numVDs ==> Laid(pp, numVDs, v, phiVD[..], s, n)
    ensures forall j :: PhiCount(pp, numVDs) <= j < phiVD.Length ==> phiVD[j] == old(phiVD[j])
  {
    var numSGFs := NumSGFs(pp);
    var nSGF := 0;
    while nSGF < numSGFs
      invariant nSGF <= numSGFs
      invariant forall s: nat, n: nat :: s < nSGF && n < numVDs ==> Laid(pp, numVDs, v, phiVD[..], s, n)
      invariant forall j :: PhiCount(pp, numVDs) <= j < phiVD.Length ==> phiVD[j] == old(phiVD[j])
    {
      var nVD := 0;
      while nVD < numVDs
        invariant nVD <= numVDs
        invariant forall s: nat, n: nat :: (s < nSGF || (s == nSGF && n < nVD)) && n < numVDs ==>
                    Laid(pp, numVDs, v, phiVD[..], s, n)
        invariant forall j :: PhiCount(pp, numVDs) <= j < phiVD.Length ==> phiVD[j] == old(phiVD[j])
      {
        WritePair(pp, numVDs, v, phiVD, nSGF, nVD);
        nVD := nVD + 1;
      }
      nSGF := nSGF + 1;
    }
  }

  /** The two writes of one (nSGF, nVD): the pair is laid out, and nothing else in PhiVD changes. */
  method WritePair(pp: bool, numVDs: nat, v: seq<Complex>, phiVD: array<real>, nSGF: nat, nVD: nat)
    requires numVDs == 1 || numVDs == 2 || numVDs == 4
    requires nSGF < NumSGFs(pp) && nVD < numVDs
    requires |v| == MaxSlots && PhiCount(pp, numVDs) <= phiVD.Length
    modifies phiVD
    ensures Laid(pp, numVDs, v, phiVD[..], nSGF, nVD)
    ensures forall s: nat, n: nat :: n < numVDs && (s, n) != (nSGF, nVD) && Laid(pp, numVDs, v, old(phiVD[..]), s, n) ==>
              Laid(pp, numVDs, v, phiVD[..], s, n)
    ensures forall j :: PhiCount(pp, numVDs) <= j < phiVD.Length ==> phiVD[j] == old(phiVD[j])
  {
    var nPhiRe := 2 * nSGF + 0;
    var nPhiIm := 2 * nSGF + 1;
    var index := VIndex(pp, nVD, nSGF);
    PhiIndexBound(pp, numVDs, nPhiRe, nVD);
    PhiIndexBound(pp, numVDs, nPhiIm, nVD);
    ghost var before := phiVD[..];
    phiVD[PhiIndex(numVDs, nPhiRe, nVD)] := v[index].re;
    phiVD[PhiIndex(numVDs, nPhiIm, nVD)] := v[index].im;
    forall s: nat, n: nat | n < numVDs && (s, n) != (nSGF, nVD) && Laid(pp, numVDs, v, before, s, n)
      ensures Laid(pp, numVDs, v, phiVD[..], s, n)
    {
      PhiIndexApart(numVDs, s, n, nSGF, nVD);
    }
  }

  /** Distinct pairs (s, n) and (s', n') have four distinct PhiIndex positions. */
  lemma PhiIndexApart(numVDs: nat, s: nat, n: nat, s': nat, n': nat)
    requires numVDs == 1 || numVDs == 2 || numVDs == 4
    requires n < numVDs && n' < numVDs && (s, n) != (s', n')
    ensures PhiIndex(numVDs, 2 * s, n) != PhiIndex(numVDs, 2 * s', n')
    ensures PhiIndex(numVDs, 2 * s, n) != PhiIndex(numVDs, 2 * s' + 1, n')
    ensures PhiIndex(numVDs, 2 * s + 1, n) != PhiIndex(numVDs, 2 * s', n')
    ensures PhiIndex(numVDs, 2 * s + 1, n) != PhiIndex(numVDs, 2 * s' + 1, n')
  {
  }

  /**
    PhiVDFunc_ScalarGFs with the reads of lines 573-576 guarded by the
    table's dimension: evaluate V (extrapolating on the axis), then lay it
    out as the table expects.
  */
  method PhiVDFunc(data: PhiVDData, rhoZ: seq<real>, dRhoZMax: seq<nat>,
                   gf: (real, real, ScalarGFOptions) -> seq<Complex>, phiVD: array<real>)
    requires |rhoZ| == |dRhoZMax| && ValidCounts(dRhoZMax)
    requires Fills(gf)
    requires 2 * NumSGFVDs(CallOptions(data, dRhoZMax)) <= phiVD.Length
    modifies phiVD
    ensures var pp := data.options.ppIsOnly;
            var numVDs := CountVDs(dRhoZMax);
            var v := SGFValues(data, rhoZ, dRhoZMax, gf);
            forall s: nat, n: nat :: s < NumSGFs(pp) && n < numVDs ==> Laid(pp, numVDs, v, phiVD[..], s, n)
    ensures forall j :: 2 * NumSGFVDs(CallOptions(data, dRhoZMax)) <= j < phiVD.Length ==> phiVD[j] == old(phiVD[j])
  {
    var o := CallOptions(data, dRhoZMax);
    var direct := gf(rhoZ[0], ZOf(data, rhoZ), o);
    FillsAt(gf, rhoZ[0], ZOf(data, rhoZ), o);
    var v := new Complex[MaxSlots](i requires 0 <= i < MaxSlots => direct[i]);
    var numSGFs := NumSGFs(o.ppIsOnly);
    var numVDs := dRhoZMax[0] * (if |dRhoZMax| > 1 then dRhoZMax[1] else 1);
    CountVDsMatches(data, dRhoZMax);
    if OnAxis(rhoZ) {
      var zScale := if data.dimension == 1 then 0.0 else 1.0;
      var v2 := gf(0.0002, 0.0002 * zScale, o);
      var v1 := gf(0.0001, 0.0001 * zScale, o);
      FillsAt(gf, 0.0002, 0.0002 * zScale, o);
      FillsAt(gf, 0.0001, 0.0001 * zScale, o);
      ExtrapolateOnAxis(o, numVDs, v, v2, v1);
    }
    assert v[..] == SGFValues(data, rhoZ, dRhoZMax, gf);
    assert PhiCount(o.ppIsOnly, numVDs) == 2 * NumSGFVDs(o);
    Relayout(o.ppIsOnly, numVDs, v[..], phiVD);
  }

  /** An interpolation table as the gates see it: its dimension, its function count and the box its grids span. */
  datatype Table = Table(dim: nat, nf: nat, lo: seq<real>, hi: seq<real>)

  /** The point's first dim coordinates lie inside the table's box. */
  predicate PointInGrid(t: Table, x: seq<real>)
  {
    |t.lo| == t.dim && |t.hi| == t.dim && t.dim <= |x| &&
    forall a :: 0 <= a < t.dim ==> t.lo[a] <= x[a] <= t.hi[a]
  }

  /** A comparison that at least holds between equal values (EqualFloat). */
  ghost predicate Reflexive<T(!new)>(eq: (T, T) -> bool)
  {
    forall a :: eq(a, a)
  }

  /** 1 when ZMin and ZMax compare equal (a table over Rho only), 2 otherwise. */
  function Dimension(zMin: real, zMax: real, eq: (real, real) -> bool): nat
  {
    if eq(zMin, zMax) then 1 else 2
  }

  /**
    The options the table is built with: the defaults, then PPIsOnly,
    Subtract and RetainSingularTerms as given, and d/dRho always, d/dz too
    in two dimensions.
  */
  function TableOptions(pp: bool, subtract: bool, retain: bool, dim: nat): (o: ScalarGFOptions)
    ensures o.useInterpolator && !o.correctionOnly && o.maxTerms == DefaultSGFOptions.maxTerms
    ensures DRho in o.needDerivatives && (Dz in o.needDerivatives <==> dim >= 2)
    ensures o.ppIsOnly == pp && o.subtract == subtract && o.retainSingularTerms == retain
  {
    InitScalarGFOptions().(ppIsOnly := pp, subtract := subtract, retainSingularTerms := retain,
                           needDerivatives := if dim >= 2 then {DRho, Dz} else {DRho})
  }

  /** The table InitScalarGFInterpolator builds: NF = 2*NumSGFs real functions over [RhoMin,RhoMax] (x [ZMin,ZMax]). */
  function BuiltTable(rhoMin: real, rhoMax: real, zMin: real, zMax: real, pp: bool, dim: nat): Table
  {
    Table(dim, 2 * NumSGFs(pp), if dim == 1 then [rhoMin] else [rhoMin, zMin],
          if dim == 1 then [rhoMax] else [rhoMax, zMax])
  }

  class LayeredSubstrate {
    /** ScalarGFInterpolator; None is the null pointer. */
    var interpolator: Option<Table>
    /** The options the table was built with. */
    var sgfiOptions: ScalarGFOptions
    /** The frequency the table was built for. */
    var omegaSGFI: Complex
    /** The fixed z of a one-dimensional table. */
    var zSGFI: real
    /** The frequency of the cached layer permittivities. */
    var omegaCache: Complex

    /**
      The gates of GetScalarGFs_Interp: the table is consulted only when
      every one of them passes.
    */
    predicate UsesInterpolator(o: ScalarGFOptions, omega: Complex, z: real, eq: (real, real) -> bool)
      reads this
    {
      o.useInterpolator && interpolator.Some? && omega == omegaCache &&
      !(interpolator.value.dim == 1 && !eq(z, zSGFI)) &&
      NumSGFs(o.ppIsOnly) <= NumSGFs(sgfiOptions.ppIsOnly) &&
      sgfiOptions.subtract == o.subtract &&
      sgfiOptions.retainSingularTerms == o.retainSingularTerms &&
      sgfiOptions.correctionOnly == o.correctionOnly &&
      o.needDerivatives == {}
    }

    /**
      CheckScalarGFInterpolator with its one- or two-dimensional branch
      chosen as InitScalarGFInterpolator chooses the dimension (EqualFloat
      of ZMin and ZMax; see CheckAsWritten).
    */
    predicate Check(omega: Complex, rhoMin: real, rhoMax: real, zMin: real, zMax: real,
                    pp: bool, subtract: bool, retain: bool,
                    eq: (real, real) -> bool, eqC: (Complex, Complex) -> bool)
      reads this
    {
      CheckBranch(omega, rhoMin, rhoMax, zMin, zMax, pp, subtract, retain, eq, eqC, eq(zMin, zMax))
    }

    /** CheckScalarGFInterpolator as written: the branch is chosen by ZMin == ZMax exactly. */
    predicate CheckAsWritten(omega: Complex, rhoMin: real, rhoMax: real, zMin: real, zMax: real,
                             pp: bool, subtract: bool, retain: bool,
                             eq: (real, real) -> bool, eqC: (Complex, Complex) -> bool)
      reads this
    {
      CheckBranch(omega, rhoMin, rhoMax, zMin, zMax, pp, subtract, retain, eq, eqC, zMin == zMax)
    }

    /**
      The check InitScalarGFInterpolator calls: as written, the one of
      CheckScalarGFInterpolator (ZMin==ZMax); corrected, the one whose
      branch follows the builder's EqualFloat test.
    */
    predicate CheckCalled(asWritten: bool, omega: Complex, rhoMin: real, rhoMax: real, zMin: real, zMax: real,
                          pp: bool, subtract: bool, retain: bool,
                          eq: (real, real) -> bool, eqC: (Complex, Complex) -> bool)
      reads this
    {
      if asWritten then CheckAsWritten(omega, rhoMin, rhoMax, zMin, zMax, pp, subtract, retain, eq, eqC)
      else Check(omega, rhoMin, rhoMax, zMin, zMax, pp, subtract, retain, eq, eqC)
    }

    /** The body of CheckScalarGFInterpolator, given which branch is taken. */
    predicate CheckBranch(omega: Complex, rhoMin: real, rhoMax: real, zMin: real, zMax: real,
                          pp: bool, subtract: bool, retain: bool,
                          eq: (real, real) -> bool, eqC: (Complex, Complex) -> bool, oneD: bool)
      reads this
    {
      interpolator.Some? && eqC(omegaSGFI, omega) && pp == sgfiOptions.ppIsOnly &&
      subtract == sgfiOptions.subtract && retain == sgfiOptions.retainSingularTerms &&
      if oneD then
        interpolator.value.dim == 1 && PointInGrid(interpolator.value, [rhoMin]) &&
        PointInGrid(interpolator.value, [rhoMax]) && eq(zMin, zSGFI)
      else
        interpolator.value.dim == 2 && PointInGrid(interpolator.value, [rhoMin, zMin]) &&
        PointInGrid(interpolator.value, [rhoMax, zMax])
    }

    /**
      InitScalarGFInterpolator.  trivial is whether, at this frequency, the
      substrate is vacuum without a ground plane (EpsLayer[1]==1 and zGP
      infinite); tolerance is the interpolation tolerance (1e-3 unless the
      environment overrides it).  Returns the table in use, None for none.
      asWritten chooses the check called at the start (CheckCalled).
    */
    method InitScalarGFInterpolator(asWritten: bool, omega: Complex, rhoMin: real, rhoMax: real, zMin: real, zMax: real,
                                    pp: bool, subtract: bool, retain: bool, trivial: bool, tolerance: real,
                                    eq: (real, real) -> bool, eqC: (Complex, Complex) -> bool)
      returns (r: Option<Table>)
      modifies this
      ensures omegaCache == omega
      ensures trivial || old(CheckCalled(asWritten, omega, rhoMin, rhoMax, zMin, zMax, pp, subtract, retain, eq, eqC)) ==>
                r == (if trivial then None else old(interpolator)) && interpolator == old(interpolator) &&
                sgfiOptions == old(sgfiOptions) && omegaSGFI == old(omegaSGFI) && zSGFI == old(zSGFI)
      ensures !trivial && !old(CheckCalled(asWritten, omega, rhoMin, rhoMax, zMin, zMax, pp, subtract, retain, eq, eqC)) &&
              tolerance == 0.0 ==>
                r.None? && interpolator.None? &&
                sgfiOptions == old(sgfiOptions) && omegaSGFI == old(omegaSGFI) && zSGFI == old(zSGFI)
      ensures !trivial && !old(CheckCalled(asWritten, omega, rhoMin, rhoMax, zMin, zMax, pp, subtract, retain, eq, eqC)) &&
              tolerance != 0.0 ==>
                var dim := Dimension(zMin, zMax, eq);
                r == interpolator && interpolator == Some(BuiltTable(rhoMin, rhoMax, zMin, zMax, pp, dim)) &&
                sgfiOptions == TableOptions(pp, subtract, retain, dim) && omegaSGFI == omega &&
                zSGFI == (if dim == 1 then zMin else old(zSGFI))
    {
      omegaCache := omega;
      if trivial {
        return None;
      }
      if CheckCalled(asWritten, omega, rhoMin, rhoMax, zMin, zMax, pp, subtract, retain, eq, eqC) {
        return interpolator;
      }
      interpolator := None;
      var dim := if eq(zMin, zMax) then 1 else 2;
      var options := InitScalarGFOptions();
      options := options.(ppIsOnly := pp, subtract := subtract, retainSingularTerms := retain);
      options := options.(needDerivatives := {DRho});
      if dim >= 2 {
        options := options.(needDerivatives := options.needDerivatives + {Dz});
      }
      var zNF := NumSGFs(pp);
      var nf := 2 * zNF;
      if tolerance == 0.0 {
        return None;
      }
      var lo := [rhoMin];
      var hi := [rhoMax];
      if dim > 1 {
        lo := lo + [zMin];
        hi := hi + [zMax];
        assert lo == [rhoMin, zMin] && hi == [rhoMax, zMax];
      }
      interpolator := Some(Table(dim, nf, lo, hi));
      sgfiOptions := options;
      if dim == 1 {
        zSGFI := zMin;
      }
      omegaSGFI := omega;
      r := interpolator;
    }
  }

  /**
    Once the table is built, asking again with the same arguments finds it
    and reuses it (the arguments must describe a box: RhoMin <= RhoMax and,
    in two dimensions, ZMin <= ZMax).
  */
  lemma CheckAfterInit(s: LayeredSubstrate, omega: Complex, rhoMin: real, rhoMax: real, zMin: real, zMax: real,
                       pp: bool, subtract: bool, retain: bool,
                       eq: (real, real) -> bool, eqC: (Complex, Complex) -> bool)
    requires Reflexive(eq) && Reflexive(eqC) && rhoMin <= rhoMax
    requires Dimension(zMin, zMax, eq) == 2 ==> zMin <= zMax
    requires s.interpolator == Some(BuiltTable(rhoMin, rhoMax, zMin, zMax, pp, Dimension(zMin, zMax, eq)))
    requires s.sgfiOptions == TableOptions(pp, subtract, retain, Dimension(zMin, zMax, eq))
    requires s.omegaSGFI == omega && (Dimension(zMin, zMax, eq) == 1 ==> s.zSGFI == zMin)
    ensures s.Check(omega, rhoMin, rhoMax, zMin, zMax, pp, subtract, retain, eq, eqC)
  {
    if Dimension(zMin, zMax, eq) == 1 {
      assert eq(zMin, zMin);
    }
    assert eqC(omega, omega);
  }

  /**
    The check as written misses a table Init built when ZMin and ZMax
    differ but compare equal: Init made it one-dimensional, the check asks
    for two dimensions, so every later Init destroys and rebuilds it.
  */
  lemma CheckAsWrittenMissesOwnTable(s: LayeredSubstrate, omega: Complex, rhoMin: real, rhoMax: real,
                                     zMin: real, zMax: real, pp: bool, subtract: bool, retain: bool,
                                     eq: (real, real) -> bool, eqC: (Complex, Complex) -> bool)
    requires eq(zMin, zMax) && zMin != zMax
    requires s.interpolator == Some(BuiltTable(rhoMin, rhoMax, zMin, zMax, pp, Dimension(zMin, zMax, eq)))
    ensures !s.CheckAsWritten(omega, rhoMin, rhoMax, zMin, zMax, pp, subtract, retain, eq, eqC)
  {
  }

  /**
    After the table is built, a lookup at the cached frequency uses it
    exactly when the lookup asks for no more Green functions than the
    table holds, agrees on Subtract and RetainSingularTerms, is not
    correction-only, asks for no derivatives, and (one-dimensional table)
    its z compares equal to ZMin.
  */
  lemma GateAfterInit(s: LayeredSubstrate, o: ScalarGFOptions, omega: Complex, z: real,
                      rhoMin: real, rhoMax: real, zMin: real, zMax: real,
                      pp: bool, subtract: bool, retain: bool, eq: (real, real) -> bool)
    requires s.interpolator == Some(BuiltTable(rhoMin, rhoMax, zMin, zMax, pp, Dimension(zMin, zMax, eq)))
    requires s.sgfiOptions == TableOptions(pp, subtract, retain, Dimension(zMin, zMax, eq))
    requires Dimension(zMin, zMax, eq) == 1 ==> s.zSGFI == zMin
    requires s.omegaCache == omega
    ensures s.UsesInterpolator(o, omega, z, eq) <==>
              o.useInterpolator && NumSGFs(o.ppIsOnly) <= NumSGFs(pp) &&
              o.subtract == subtract && o.retainSingularTerms == retain && !o.correctionOnly &&
              o.needDerivatives == {} && (Dimension(zMin, zMax, eq) == 1 ==> eq(z, zMin))
  {
  }

  /** Derivatives are never served from the table, whatever it holds. */
  lemma GateRefusesDerivatives(s: LayeredSubstrate, o: ScalarGFOptions, omega: Complex, z: real, eq: (real, real) -> bool)
    requires o.needDerivatives != {}
    ensures !s.UsesInterpolator(o, omega, z, eq)
  {
  }
}
