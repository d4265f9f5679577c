/**
  Method-of-images scalar Green functions for a metal layer directly on a
  dielectric substrate (of infinite thickness, or backed by a ground
  plane): the option record, the layout of the output slots, the control
  flow of the real-space image series, and the slot-by-slot fill of the
  Fourier-space integrand.

  Complex numbers are pairs of reals.  What one image term or one
  integrand factor is worth (exponentials, Bessel and hyperbolic
  factors) is an input, and so is the modulus abs(); only the control
  flow and the index arithmetic are modelled.
*/
module MOI {
  import opened Text

  datatype Complex = Complex(re: real, im: real)

  const Zero := Complex(0.0, 0.0)

  function Add(a: Complex, b: Complex): Complex
  {
    Complex(a.re + b.re, a.im + b.im)
  }

  function Mul(a: Complex, b: Complex): Complex
  {
    Complex(a.re * b.re - a.im * b.im, a.re * b.im + a.im * b.re)
  }

  /** The two bits of NeedDerivatives: NEED_DRHO and NEED_DZ. */
  datatype Derivative = DRho | Dz

  datatype ScalarGFOptions = ScalarGFOptions(
    ppIsOnly: bool,
    subtract: bool,
    retainSingularTerms: bool,
    correctionOnly: bool,
    useInterpolator: bool,
    needDerivatives: set<Derivative>,
    maxTerms: int,
    relTol: real,
    absTol: real)

  /** The static DefaultSGFOptions record, field by field in declaration order. */
  const DefaultSGFOptions := ScalarGFOptions(false, true, false, false, true, {}, 1000, 0.000001, 0.000000000001)

  /** InitScalarGFOptions: every field of the record is assigned its default. */
  function InitScalarGFOptions(): (o: ScalarGFOptions)
    ensures !o.ppIsOnly && o.subtract && !o.retainSingularTerms && !o.correctionOnly && o.useInterpolator
    ensures o.needDerivatives == {} && o.maxTerms == 1000
    ensures o.relTol == 0.000001 && o.absTol == 0.000000000001
  {
    ScalarGFOptions(ppIsOnly := false, subtract := true, retainSingularTerms := false,
                    correctionOnly := false, useInterpolator := true, needDerivatives := {},
                    maxTerms := 1000, relTol := 0.000001, absTol := 0.000000000001)
  }

  /** Initialising a record gives the same values as the static default. */
  lemma InitIsDefault()
    ensures InitScalarGFOptions() == DefaultSGFOptions
  {
  }

  // ---------------------------------------------------------------------
  // Slot layout
  // ---------------------------------------------------------------------

  /** The scalar Green functions, in slot order: A_parallel, Phi, A_z, dPhi/dRho, dPhi/dz. */
  const SGF_APAR := 0
  const SGF_PHI := 1
  const SGF_AZ := 2
  const SGF_DRPHI := 3
  const SGF_DZPHI := 4
  const NUMSGFS_MOI := 5

  /** The largest output any option asks for: the size of every local buffer (4*NUMSGFS_MOI). */
  const MaxSlots := 4 * NUMSGFS_MOI

  /** Only A_parallel and Phi when PPIsOnly, all five otherwise. */
  function NumSGFs(ppIsOnly: bool): nat
  {
    if ppIsOnly then 2 else NUMSGFS_MOI
  }

  /** The largest d/dRho order, 1 when NEED_DRHO is set. */
  function DRhoMax(o: ScalarGFOptions): nat
  {
    if DRho in o.needDerivatives then 1 else 0
  }

  /** The largest d/dz order, 1 when NEED_DZ is set. */
  function DzMax(o: ScalarGFOptions): nat
  {
    if Dz in o.needDerivatives then 1 else 0
  }

  /** The number of value/derivative combinations per Green function: (dRhoMax+1)*(dzMax+1). */
  function NumVDs(o: ScalarGFOptions): nat
  {
    if DRho in o.needDerivatives then (if Dz in o.needDerivatives then 4 else 2)
    else (if Dz in o.needDerivatives then 2 else 1)
  }

  /** NumSGFs*NumVDs, written with the two possible values of NumSGFs. */
  function NumSGFVDs(o: ScalarGFOptions): (n: nat)
    ensures 2 <= n <= MaxSlots
  {
    if o.ppIsOnly then 2 * NumVDs(o) else 5 * NumVDs(o)
  }

  /**
    The count as the routines compute it: start from NumSGFs and double it
    for each derivative bit.  It is the product of the two counts and never
    exceeds the 4*NUMSGFS_MOI entries of the local buffers.
  */
  method CountSGFVDs(o: ScalarGFOptions) returns (n: nat)
    ensures n == NumSGFs(o.ppIsOnly) * (DRhoMax(o) + 1) * (DzMax(o) + 1)
    ensures n == NumSGFVDs(o) && n <= MaxSlots
  {
    n := if o.ppIsOnly then 2 else NUMSGFS_MOI;
    if DRho in o.needDerivatives {
      n := n * 2;
    }
    if Dz in o.needDerivatives {
      n := n * 2;
    }
  }

  /** Derivative combination (dz, dRho) is number nvd = dz*(dRhoMax+1)+dRho. */
  function VdIndex(o: ScalarGFOptions, dz: nat, dRho: nat): nat
  {
    if DRho in o.needDerivatives then 2 * dz + dRho else dz + dRho
  }

  /** Datum (nvd, nSGF) sits at nvd*NumSGFs+nSGF. */
  function SlotOf(o: ScalarGFOptions, dz: nat, dRho: nat, s: nat): nat
  {
    if o.ppIsOnly then 2 * VdIndex(o, dz, dRho) + s else 5 * VdIndex(o, dz, dRho) + s
  }

  /** The Green function of slot i: i % NumSGFs. */
  function SgfOf(o: ScalarGFOptions, i: nat): nat
  {
    if o.ppIsOnly then i % 2 else i % 5
  }

  /** The derivative combination of slot i: i / NumSGFs. */
  function VdOf(o: ScalarGFOptions, i: nat): nat
  {
    if o.ppIsOnly then i / 2 else i / 5
  }

  function DRhoOf(o: ScalarGFOptions, i: nat): nat
  {
    if DRho in o.needDerivatives then VdOf(o, i) % 2 else 0
  }

  function DzOf(o: ScalarGFOptions, i: nat): nat
  {
    if DRho in o.needDerivatives then VdOf(o, i) / 2 else VdOf(o, i)
  }

  /** The slot of a combination the options ask for lies below NumSGFVDs and decomposes back into it. */
  lemma SlotFacts(o: ScalarGFOptions, dz: nat, dRho: nat, s: nat)
    requires dz <= DzMax(o) && dRho <= DRhoMax(o) && s < NumSGFs(o.ppIsOnly)
    ensures SlotOf(o, dz, dRho, s) < NumSGFVDs(o)
    ensures DzOf(o, SlotOf(o, dz, dRho, s)) == dz && DRhoOf(o, SlotOf(o, dz, dRho, s)) == dRho
    ensures SgfOf(o, SlotOf(o, dz, dRho, s)) == s
  {
  }

  /** Every slot below NumSGFVDs belongs to a combination the options ask for. */
  lemma SlotInverse(o: ScalarGFOptions, i: nat)
    requires i < NumSGFVDs(o)
    ensures DzOf(o, i) <= DzMax(o) && DRhoOf(o, i) <= DRhoMax(o) && SgfOf(o, i) < NumSGFs(o.ppIsOnly)
    ensures SlotOf(o, DzOf(o, i), DRhoOf(o, i), SgfOf(o, i)) == i
  {
  }

  /**
    The layout is a bijection: every combination (dz, dRho, nSGF) the options
    ask for has its own slot below NumSGFVDs, and every slot below
    NumSGFVDs belongs to exactly that combination.
  */
  lemma SlotLayout(o: ScalarGFOptions)
    ensures forall dz: nat, dRho: nat, s: nat :: dz <= DzMax(o) && dRho <= DRhoMax(o) && s < NumSGFs(o.ppIsOnly) ==>
              SlotOf(o, dz, dRho, s) < NumSGFVDs(o) &&
              DzOf(o, SlotOf(o, dz, dRho, s)) == dz && DRhoOf(o, SlotOf(o, dz, dRho, s)) == dRho &&
              SgfOf(o, SlotOf(o, dz, dRho, s)) == s
    ensures forall i: nat :: i < NumSGFVDs(o) ==>
              DzOf(o, i) <= DzMax(o) && DRhoOf(o, i) <= DRhoMax(o) && SgfOf(o, i) < NumSGFs(o.ppIsOnly) &&
              SlotOf(o, DzOf(o, i), DRhoOf(o, i), SgfOf(o, i)) == i
  {
    forall dz: nat, dRho: nat, s: nat | dz <= DzMax(o) && dRho <= DRhoMax(o) && s < NumSGFs(o.ppIsOnly)
      ensures SlotOf(o, dz, dRho, s) < NumSGFVDs(o) &&
              DzOf(o, SlotOf(o, dz, dRho, s)) == dz && DRhoOf(o, SlotOf(o, dz, dRho, s)) == dRho &&
              SgfOf(o, SlotOf(o, dz, dRho, s)) == s
    {
      SlotFacts(o, dz, dRho, s);
    }
    forall i: nat | i < NumSGFVDs(o)
      ensures DzOf(o, i) <= DzMax(o) && DRhoOf(o, i) <= DRhoMax(o) && SgfOf(o, i) < NumSGFs(o.ppIsOnly) &&
              SlotOf(o, DzOf(o, i), DRhoOf(o, i), SgfOf(o, i)) == i
    {
      SlotInverse(o, i);
    }
  }

  // ---------------------------------------------------------------------
  // One image term (AddSGFTerm_MOI)
  // ---------------------------------------------------------------------

  /**
    What the image series is made of.  term(n, dz, dRho, nSGF) is what image
    n adds to the (dz, dRho) derivative of Green function nSGF, prefactors
    included; r2Zero(n) says that image n sits on the observation point
    (Rho^2 + z_n^2 == 0), where the routine adds nothing.
  */
  datatype Images = Images(term: (nat, nat, nat, nat) -> Complex, r2Zero: nat -> bool)

  /**
    The Green functions image n writes: Phi always, A_parallel for the
    direct term and the first image only, the two Phi derivatives unless
    PPIsOnly.  A_z is never written.
  */
  predicate Writes(ppIsOnly: bool, n: nat, s: nat)
  {
    s == SGF_PHI || (s == SGF_APAR && n <= 1) || (!ppIsOnly && (s == SGF_DRPHI || s == SGF_DZPHI))
  }

  /** What image n adds to output slot i. */
  function ImageTerm(o: ScalarGFOptions, img: Images, n: nat, i: nat): Complex
  {
    if !img.r2Zero(n) && i < NumSGFVDs(o) && Writes(o.ppIsOnly, n, SgfOf(o, i))
    then img.term(n, DzOf(o, i), DRhoOf(o, i), SgfOf(o, i))
    else Zero
  }

  /** Slot s of combination (dz, dRho) gets image n's term for that datum, when image n writes it. */
  lemma ImageTermAt(o: ScalarGFOptions, img: Images, n: nat, dz: nat, dRho: nat, s: nat)
    requires !img.r2Zero(n) && dz <= DzMax(o) && dRho <= DRhoMax(o) && s < NumSGFs(o.ppIsOnly)
    ensures ImageTerm(o, img, n, SlotOf(o, dz, dRho, s)) ==
            if Writes(o.ppIsOnly, n, s) then img.term(n, dz, dRho, s) else Zero
  {
    SlotFacts(o, dz, dRho, s);
  }

  /**
    AddSGFTerm_MOI(n, EtaFac): for each derivative combination, dz-major,
    add image n's contributions into the block of that combination.  The
    result is the prefactor for the next image: 0 when the routine returned
    early, Eta*EtaFac otherwise.
  */
  method AddSGFTerm(o: ScalarGFOptions, img: Images, n: nat, eta: Complex, etaFac: Complex, v: array<Complex>)
    returns (next: Complex)
    requires NumSGFVDs(o) <= v.Length
    modifies v
    ensures forall i :: 0 <= i < NumSGFVDs(o) ==> v[i] == Add(old(v[i]), ImageTerm(o, img, n, i))
    ensures forall i :: NumSGFVDs(o) <= i < v.Length ==> v[i] == old(v[i])
    ensures next == if img.r2Zero(n) then Zero else Mul(eta, etaFac)
  {
    if img.r2Zero(n) {
      forall i | 0 <= i < NumSGFVDs(o)
        ensures v[i] == Add(v[i], ImageTerm(o, img, n, i))
      {
      }
      return Zero;
    }
    var numSGFs := NumSGFs(o.ppIsOnly);
    var dRhoMax := DRhoMax(o);
    var dzMax := DzMax(o);
    var nvd := 0;
    var dz := 0;
    while dz <= dzMax
      invariant dz <= dzMax + 1 && nvd == VdIndex(o, dz, 0)
      invariant forall i :: 0 <= i < SlotOf(o, dz, 0, 0) ==> v[i] == Add(old(v[i]), ImageTerm(o, img, n, i))
      invariant forall i :: SlotOf(o, dz, 0, 0) <= i < v.Length ==> v[i] == old(v[i])
    {
      var dRho := 0;
      while dRho <= dRhoMax
        invariant dRho <= dRhoMax + 1 && nvd == VdIndex(o, dz, dRho)
        invariant forall i :: 0 <= i < SlotOf(o, dz, dRho, 0) ==> v[i] == Add(old(v[i]), ImageTerm(o, img, n, i))
        invariant forall i :: SlotOf(o, dz, dRho, 0) <= i < v.Length ==> v[i] == old(v[i])
      {
        SlotFacts(o, dz, dRho, numSGFs - 1);
        AddToBlock(o, img, n, dz, dRho, v);
        dRho := dRho + 1;
        nvd := nvd + 1;
      }
      dz := dz + 1;
    }
    next := Mul(eta, etaFac);
  }

  /** The body of the derivative loop: V = VVector + nvd*NumSGFs, and the writes into V. */
  method AddToBlock(o: ScalarGFOptions, img: Images, n: nat, dz: nat, dRho: nat, v: array<Complex>)
    requires !img.r2Zero(n) && dz <= DzMax(o) && dRho <= DRhoMax(o)
    requires SlotOf(o, dz, dRho, 0) + NumSGFs(o.ppIsOnly) <= NumSGFVDs(o) <= v.Length
    modifies v
    ensures forall i :: 0 <= i < v.Length ==>
              v[i] == if SlotOf(o, dz, dRho, 0) <= i < SlotOf(o, dz, dRho, 0) + NumSGFs(o.ppIsOnly)
                      then Add(old(v[i]), ImageTerm(o, img, n, i)) else old(v[i])
  {
    var base := SlotOf(o, dz, dRho, 0);
    if n <= 1 {
      v[base + SGF_APAR] := Add(v[base + SGF_APAR], img.term(n, dz, dRho, SGF_APAR));
    }
    v[base + SGF_PHI] := Add(v[base + SGF_PHI], img.term(n, dz, dRho, SGF_PHI));
    if !o.ppIsOnly {
      v[base + SGF_DRPHI] := Add(v[base + SGF_DRPHI], img.term(n, dz, dRho, SGF_DRPHI));
      v[base + SGF_DZPHI] := Add(v[base + SGF_DZPHI], img.term(n, dz, dRho, SGF_DZPHI));
    }
    forall i | 0 <= i < v.Length
      ensures v[i] == if base <= i < base + NumSGFs(o.ppIsOnly)
                      then Add(old(v[i]), ImageTerm(o, img, n, i)) else old(v[i])
    {
      if base <= i < base + NumSGFs(o.ppIsOnly) {
        ImageTermAt(o, img, n, dz, dRho, i - base);
        if i == base + SGF_APAR {
          assert v[i] == if n <= 1 then Add(old(v[i]), img.term(n, dz, dRho, SGF_APAR)) else old(v[i]);
        } else if i == base + SGF_PHI {
          assert v[i] == Add(old(v[i]), img.term(n, dz, dRho, SGF_PHI));
        } else if i == base + SGF_AZ {
          assert v[i] == old(v[i]);
        }
      }
    }
  }

  // ---------------------------------------------------------------------
  // The real-space correction (GetSGFCorrection_MOI)
  // ---------------------------------------------------------------------

  /** What image n contributes to the sum: the direct term (n == 0) only with RetainSingularTerms. */
  function Contribution(o: ScalarGFOptions, img: Images, n: nat, i: nat): Complex
  {
    if n == 0 && !o.retainSingularTerms then Zero else ImageTerm(o, img, n, i)
  }

  /** Slot i of the output once images 0 .. count-1 have been summed. */
  function Partial(o: ScalarGFOptions, img: Images, i: nat, count: nat): Complex
  {
    if count == 0 then Zero else Add(Partial(o, img, i, count - 1), Contribution(o, img, count - 1, i))
  }

  /** The output slots 0 .. NumSGFVDs-1 once images 0 .. count-1 have been summed. */
  function PartialSums(o: ScalarGFOptions, img: Images, count: nat): (r: seq<Complex>)
    ensures |r| == NumSGFVDs(o)
    ensures forall i :: 0 <= i < |r| ==> r[i] == Partial(o, img, i, count)
  {
    seq(NumSGFVDs(o), (i: int) requires 0 <= i => Partial(o, img, i, count))
  }

  /** A buffer whose first NumSGFVDs slots hold the partial sums holds PartialSums there. */
  lemma PartialSumsFromSlots(o: ScalarGFOptions, img: Images, v: array<Complex>, count: nat)
    requires NumSGFVDs(o) <= v.Length
    requires forall i :: 0 <= i < NumSGFVDs(o) ==> v[i] == Partial(o, img, i, count)
    ensures v[..NumSGFVDs(o)] == PartialSums(o, img, count)
  {
  }

  /** The images 2k and 2k+1 together, as summed into the scratch buffer Vn. */
  function PairTerm(o: ScalarGFOptions, img: Images, k: nat, i: nat): Complex
  {
    Add(Add(Zero, ImageTerm(o, img, 2 * k, i)), ImageTerm(o, img, 2 * k + 1, i))
  }

  /** The slot whose convergence check p performs: Phi, then dPhi/dRho and dPhi/dz. */
  function ComponentSlot(p: nat): nat
  {
    if p == 0 then SGF_PHI else if p == 1 then SGF_DRPHI else SGF_DZPHI
  }

  /** Only Phi is checked when PPIsOnly; the three Phi components otherwise. */
  function Checked(o: ScalarGFOptions): nat
  {
    if o.ppIsOnly then 1 else 3
  }

  /** The reference magnitude of component p: its value after the direct term and the first image. */
  function RefVal(o: ScalarGFOptions, img: Images, mag: Complex -> real, p: nat): real
  {
    mag(Partial(o, img, ComponentSlot(p), 2))
  }

  /** A term of magnitude a is negligible: not above AbsTol, or not above RelTol times the reference. */
  predicate Small(o: ScalarGFOptions, a: real, ref: real)
  {
    !(a > o.absTol && a > o.relTol * ref)
  }

  /** Checks 0 .. p-1 pass, with the magnitudes of the checked terms and their references. */
  predicate ChecksPass(o: ScalarGFOptions, absTerms: seq<real>, refs: seq<real>, p: nat)
    requires p <= |absTerms| && p <= |refs|
  {
    p == 0 || (ChecksPass(o, absTerms, refs, p - 1) && Small(o, absTerms[p - 1], refs[p - 1]))
  }

  /** Only the first p entries matter to the first p checks. */
  lemma {:induction false} ChecksPassPrefix(o: ScalarGFOptions, a: seq<real>, r: seq<real>, a': seq<real>, r': seq<real>, p: nat)
    requires p <= |a| && p <= |r| && p <= |a'| && p <= |r'|
    requires forall q :: 0 <= q < p ==> a[q] == a'[q] && r[q] == r'[q]
    ensures ChecksPass(o, a, r, p) == ChecksPass(o, a', r', p)
  {
    if p > 0 {
      ChecksPassPrefix(o, a, r, a', r', p - 1);
    }
  }

  /** The magnitudes of the Phi, dPhi/dRho and dPhi/dz entries of a buffer (value block). */
  function ComponentMagnitudes(mag: Complex -> real, s: seq<Complex>): (m: seq<real>)
    requires |s| == MaxSlots
    ensures |m| == 3
  {
    [mag(s[SGF_PHI]), mag(s[SGF_DRPHI]), mag(s[SGF_DZPHI])]
  }

  /** Pair k converged: each checked component is small relative to its reference. */
  predicate Converged(o: ScalarGFOptions, img: Images, mag: Complex -> real, k: nat)
  {
    ChecksPass(o, [mag(PairTerm(o, img, k, SGF_PHI)), mag(PairTerm(o, img, k, SGF_DRPHI)), mag(PairTerm(o, img, k, SGF_DZPHI))],
               [RefVal(o, img, mag, 0), RefVal(o, img, mag, 1), RefVal(o, img, mag, 2)], Checked(o))
  }

  /** The convergence test of every pair, as one function of the pair number. */
  function ConvergedFn(o: ScalarGFOptions, img: Images, mag: Complex -> real): nat -> bool
  {
    (k: nat) => Converged(o, img, mag, k)
  }

  /** MaxTerms/2 with C's truncating division. */
  function CHalf(m: int): int
  {
    if m >= 0 then m / 2 else -((-m) / 2)
  }

  /** The return value of the routine and the number of images summed into V. */
  datatype Outcome = Outcome(code: int, images: nat)

  /**
    The streak loop from pair k on (pairs k .. half-1 remain), with c
    consecutive converged pairs just before it.
  */
  function StreakFrom(conv: nat -> bool, half: int, k: nat, c: nat): Outcome
    decreases half - k
  {
    if k >= half then Outcome(0, 2 * k)
    else
      var c' := if conv(k) then c + 1 else 0;
      if c' == 3 then Outcome(2 * k, 2 * k + 2) else StreakFrom(conv, half, k + 1, c')
  }

  /** The whole routine: the two early returns, then the streak loop from pair 1. */
  function Correction(o: ScalarGFOptions, hIsInf: bool, eta: Complex, img: Images, mag: Complex -> real): Outcome
  {
    if hIsInf || o.maxTerms == 1 then Outcome(1, 1)
    else if eta == Zero || o.maxTerms == 2 then Outcome(1, 2)
    else StreakFrom(ConvergedFn(o, img, mag), CHalf(o.maxTerms), 1, 0)
  }

  /** Pairs k-2, k-1 and k all converged (pair numbering starts at 1). */
  predicate Triple(conv: nat -> bool, k: nat)
  {
    k >= 3 && conv(k - 2) && conv(k - 1) && conv(k)
  }

  /** The number of converged pairs just before pair k (counting from pair 1), capped at 2. */
  function RunBefore(conv: nat -> bool, k: nat): nat
  {
    if k <= 1 || !conv(k - 1) then 0
    else if k >= 3 && conv(k - 2) then 2
    else 1
  }

  lemma {:induction false} StreakFromMeaning(conv: nat -> bool, half: int, k: nat)
    requires k >= 1
    requires forall j :: 1 <= j < k ==> !Triple(conv, j)
    ensures var r := StreakFrom(conv, half, k, RunBefore(conv, k)).code;
            (r == 0 <==> forall j :: k <= j < half ==> !Triple(conv, j)) &&
            (r != 0 ==> r % 2 == 0 && k <= r / 2 < half && Triple(conv, r / 2) &&
                        forall j :: 1 <= j < r / 2 ==> !Triple(conv, j))
    decreases half - k
  {
    if k >= half {
      return;
    }
    var c := RunBefore(conv, k);
    var c' := if conv(k) then c + 1 else 0;
    assert c' == 3 <==> Triple(conv, k);
    if c' != 3 {
      assert c' == RunBefore(conv, k + 1);
      StreakFromMeaning(conv, half, k + 1);
    }
  }

  /**
    GetSGFCorrection_MOI's answer, when the series loop runs: 0 exactly
    when no three consecutive pairs converge before MaxTerms/2, and
    otherwise 2*nTermPairs for the first pair that completes such a streak.
  */
  lemma CorrectionMeaning(o: ScalarGFOptions, hIsInf: bool, eta: Complex, img: Images, mag: Complex -> real)
    requires !hIsInf && o.maxTerms != 1 && o.maxTerms != 2 && eta != Zero
    ensures var r := Correction(o, hIsInf, eta, img, mag).code;
            var conv := ConvergedFn(o, img, mag);
            (r == 0 <==> forall j :: 1 <= j < CHalf(o.maxTerms) ==> !Triple(conv, j)) &&
            (r != 0 ==> r % 2 == 0 && 1 <= r / 2 < CHalf(o.maxTerms) && Triple(conv, r / 2) &&
                        forall j :: 1 <= j < r / 2 ==> !Triple(conv, j))
  {
    StreakFromMeaning(ConvergedFn(o, img, mag), CHalf(o.maxTerms), 1);
  }

  /** Once pairs k-2 .. k converge, the routine has returned by pair k, and not before pair 3. */
  lemma CorrectionStopsByTriple(o: ScalarGFOptions, hIsInf: bool, eta: Complex, img: Images,
                                mag: Complex -> real, k: nat)
    requires !hIsInf && o.maxTerms != 1 && o.maxTerms != 2 && eta != Zero
    requires 1 <= k < CHalf(o.maxTerms) && Triple(ConvergedFn(o, img, mag), k)
    ensures 6 <= Correction(o, hIsInf, eta, img, mag).code <= 2 * k
  {
    CorrectionMeaning(o, hIsInf, eta, img, mag);
  }

  /** memset of the first n entries (corrected count, see ClearedEntriesAsWritten). */
  method ClearSlots(v: array<Complex>, n: nat)
    requires n <= v.Length
    modifies v
    ensures forall i :: 0 <= i < n ==> v[i] == Zero
    ensures forall i :: n <= i < v.Length ==> v[i] == old(v[i])
  {
    var i := 0;
    while i < n
      invariant i <= n
      invariant forall j :: 0 <= j < i ==> v[j] == Zero
      invariant forall j :: i <= j < v.Length ==> v[j] == old(v[j])
    {
      v[i] := Zero;
      i := i + 1;
    }
  }

  /** Add the n entries of vn into v, entry by entry. */
  method VecPlusEquals(v: array<Complex>, vn: array<Complex>, n: nat)
    requires n <= v.Length && n <= vn.Length && v != vn
    modifies v
    ensures forall i :: 0 <= i < n ==> v[i] == Add(old(v[i]), vn[i])
    ensures forall i :: n <= i < v.Length ==> v[i] == old(v[i])
  {
    var i := 0;
    while i < n
      invariant i <= n
      invariant forall j :: 0 <= j < i ==> v[j] == Add(old(v[j]), vn[j])
      invariant forall j :: i <= j < v.Length ==> v[j] == old(v[j])
    {
      v[i] := Add(v[i], vn[i]);
      i := i + 1;
    }
  }

  /** The test on a buffer holding pair k, with references that agree on the checked components, is Converged. */
  lemma ConvergedFromBuffer(o: ScalarGFOptions, img: Images, mag: Complex -> real, k: nat, s: seq<Complex>, refs: seq<real>)
    requires |s| == MaxSlots && |refs| == 3
    requires forall i :: 0 <= i < MaxSlots ==> s[i] == PairTerm(o, img, k, i)
    requires forall p :: 0 <= p < Checked(o) ==> refs[p] == RefVal(o, img, mag, p)
    ensures ChecksPass(o, ComponentMagnitudes(mag, s), refs, Checked(o)) == Converged(o, img, mag, k)
  {
    assert ComponentMagnitudes(mag, s) ==
           [mag(PairTerm(o, img, k, SGF_PHI)), mag(PairTerm(o, img, k, SGF_DRPHI)), mag(PairTerm(o, img, k, SGF_DZPHI))];
    ChecksPassPrefix(o, ComponentMagnitudes(mag, s), refs, ComponentMagnitudes(mag, s),
                     [RefVal(o, img, mag, 0), RefVal(o, img, mag, 1), RefVal(o, img, mag, 2)], Checked(o));
  }

  /**
    One pass of the series loop: images 2k and 2k+1 summed into a cleared
    scratch buffer Vn, which is then added to V.
  */
  method AddPair(o: ScalarGFOptions, img: Images, k: nat, eta: Complex, etaFac: Complex, v: array<Complex>)
    returns (next: Complex, vn: array<Complex>)
    requires k >= 1 && v.Length == MaxSlots
    requires forall i :: 0 <= i < NumSGFVDs(o) ==> v[i] == Partial(o, img, i, 2 * k)
    modifies v
    ensures fresh(vn) && vn.Length == MaxSlots
    ensures forall i :: 0 <= i < MaxSlots ==> vn[i] == PairTerm(o, img, k, i)
    ensures forall i :: 0 <= i < NumSGFVDs(o) ==> v[i] == Partial(o, img, i, 2 * k + 2)
    ensures forall i :: NumSGFVDs(o) <= i < v.Length ==> v[i] == old(v[i])
  {
    vn := new Complex[MaxSlots](_ => Zero);
    next := AddSGFTerm(o, img, 2 * k, eta, etaFac, vn);
    next := AddSGFTerm(o, img, 2 * k + 1, eta, next, vn);
    VecPlusEquals(v, vn, NumSGFVDs(o));
    forall i | 0 <= i < NumSGFVDs(o)
      ensures v[i] == Partial(o, img, i, 2 * k + 2)
    {
      PairStep(o, img, k, i);
    }
  }

  /** Adding the pass of images 2k, 2k+1 to the partial sum gives the partial sum two images further. */
  lemma PairStep(o: ScalarGFOptions, img: Images, k: nat, i: nat)
    requires k >= 1
    ensures Add(Partial(o, img, i, 2 * k), PairTerm(o, img, k, i)) == Partial(o, img, i, 2 * k + 2)
  {
    var p := Partial(o, img, i, 2 * k);
    var a := ImageTerm(o, img, 2 * k, i);
    var b := ImageTerm(o, img, 2 * k + 1, i);
    assert Partial(o, img, i, 2 * k + 1) == Add(p, a);
    AddAssociates(p, a, b);
  }

  /** Adding a pair's terms one at a time is adding their sum, started from zero as Vn is. */
  lemma AddAssociates(p: Complex, a: Complex, b: Complex)
    ensures Add(p, Add(Add(Zero, a), b)) == Add(Add(p, a), b)
  {
  }

  /** The convergence test of one pass: AllConverged after the loop over the checked components. */
  method PairConverged(o: ScalarGFOptions, mag: Complex -> real, vn: array<Complex>, refVals: seq<real>)
    returns (allConverged: bool)
    requires vn.Length == MaxSlots && |refVals| == 3
    ensures allConverged == ChecksPass(o, ComponentMagnitudes(mag, vn[..]), refVals, Checked(o))
  {
    ghost var absTerms := ComponentMagnitudes(mag, vn[..]);
    allConverged := true;
    var p := 0;
    while p < Checked(o)
      invariant p <= Checked(o)
      invariant allConverged == ChecksPass(o, absTerms, refVals, p)
    {
      var index := ComponentSlot(p);
      var absTerm := mag(vn[index]);
      if !Small(o, absTerm, refVals[p]) {
        allConverged := false;
      }
      p := p + 1;
    }
  }

  /**
    One pass of the series loop: add images 2k and 2k+1 to the sum and
    test them, component by component, against the reference values.
  */
  method SeriesPass(o: ScalarGFOptions, img: Images, mag: Complex -> real, k: nat, ghost n: nat,
                    eta: Complex, etaFac: Complex, v: array<Complex>, refVals: seq<real>)
    returns (next: Complex, allConverged: bool)
    requires k >= 1 && n == 2 * k && v.Length == MaxSlots && |refVals| == 3
    requires v[..NumSGFVDs(o)] == PartialSums(o, img, n)
    requires forall p :: 0 <= p < Checked(o) ==> refVals[p] == RefVal(o, img, mag, p)
    modifies v
    ensures allConverged == Converged(o, img, mag, k)
    ensures v[..NumSGFVDs(o)] == PartialSums(o, img, n + 2)
    ensures v[NumSGFVDs(o)..] == old(v[NumSGFVDs(o)..])
  {
    var vn;
    next, vn := AddPair(o, img, k, eta, etaFac, v);
    allConverged := PairConverged(o, mag, vn, refVals);
    ConvergedFromBuffer(o, img, mag, k, vn[..], refVals);
  }

  /**
    The series loop of GetSGFCorrection_MOI: pairs 1, 2, ... until three
    in a row converge or MaxTerms/2 is reached.
  */
  method SeriesLoop(o: ScalarGFOptions, img: Images, mag: Complex -> real, ghost conv: nat -> bool,
                    eta: Complex, etaFac: Complex, v: array<Complex>, refVals: seq<real>)
    returns (r: int)
    requires v.Length == MaxSlots && |refVals| == 3
    requires forall k: nat {:trigger Converged(o, img, mag, k)} :: conv(k) == Converged(o, img, mag, k)
    requires v[..NumSGFVDs(o)] == PartialSums(o, img, 2)
    requires forall p :: 0 <= p < Checked(o) ==> refVals[p] == RefVal(o, img, mag, p)
    modifies v
    ensures var out := StreakFrom(conv, CHalf(o.maxTerms), 1, 0);
            r == out.code && v[..NumSGFVDs(o)] == PartialSums(o, img, out.images)
    ensures v[NumSGFVDs(o)..] == old(v[NumSGFVDs(o)..])
  {
    var etaFac := etaFac;
    var convergedIters := 0;
    var nTermPairs := 1;
    ghost var summed := 2;
    while nTermPairs < CHalf(o.maxTerms)
      invariant nTermPairs >= 1 && convergedIters < 3 && summed == 2 * nTermPairs
      invariant StreakFrom(conv, CHalf(o.maxTerms), nTermPairs, convergedIters) == StreakFrom(conv, CHalf(o.maxTerms), 1, 0)
      invariant v[..NumSGFVDs(o)] == PartialSums(o, img, summed)
      invariant v[NumSGFVDs(o)..] == old(v[NumSGFVDs(o)..])
      decreases CHalf(o.maxTerms) - nTermPairs
    {
      var allConverged;
      etaFac, allConverged := SeriesPass(o, img, mag, nTermPairs, summed, eta, etaFac, v, refVals);
      summed := summed + 2;
      if allConverged {
        convergedIters := convergedIters + 1;
      } else {
        convergedIters := 0;
      }
      if convergedIters == 3 {
        return 2 * nTermPairs;
      }
      nTermPairs := nTermPairs + 1;
    }
    return 0;
  }

  /** Clear the output and add image 0 (the source image) when singular terms are retained. */
  method StartSum(o: ScalarGFOptions, img: Images, eta: Complex, v: array<Complex>)
    requires v.Length == MaxSlots
    modifies v
    ensures v[..NumSGFVDs(o)] == PartialSums(o, img, 1)
    ensures v[NumSGFVDs(o)..] == old(v[NumSGFVDs(o)..])
  {
    var numSGFVDs := CountSGFVDs(o);
    ClearSlots(v, numSGFVDs);
    if o.retainSingularTerms {
      var _ := AddSGFTerm(o, img, 0, eta, Complex(1.0 - eta.re, -eta.im), v);
      forall i | 0 <= i < numSGFVDs
        ensures v[i] == Partial(o, img, i, 1)
      {
        assert Partial(o, img, i, 1) == Add(Zero, ImageTerm(o, img, 0, i));
      }
    } else {
      forall i | 0 <= i < numSGFVDs
        ensures v[i] == Partial(o, img, i, 1)
      {
        assert Partial(o, img, i, 1) == Add(Zero, Zero);
      }
    }
    PartialSumsFromSlots(o, img, v, 1);
  }

  /** Add image 1, with EtaFac = 1 - Eta^2; returns the factor of the next image. */
  method AddSecondImage(o: ScalarGFOptions, img: Images, eta: Complex, v: array<Complex>)
    returns (etaFac: Complex)
    requires v.Length == MaxSlots
    requires v[..NumSGFVDs(o)] == PartialSums(o, img, 1)
    modifies v
    ensures v[..NumSGFVDs(o)] == PartialSums(o, img, 2)
    ensures v[NumSGFVDs(o)..] == old(v[NumSGFVDs(o)..])
  {
    var eta2 := Mul(eta, eta);
    etaFac := AddSGFTerm(o, img, 1, eta, Complex(1.0 - eta2.re, -eta2.im), v);
    PartialSumsFromSlots(o, img, v, 2);
  }

  /**
    GetSGFCorrection_MOI with the output cleared over all its NumSGFVDs
    slots, the scratch sum of each pass cleared before use, and each
    component compared with its own reference value (see the as-written
    members below).  h infinite is hIsInf, Eta = (Eps-1)/(Eps+1) is eta.
  */
  method GetSGFCorrection(o: ScalarGFOptions, hIsInf: bool, eta: Complex, img: Images, mag: Complex -> real,
                          v: array<Complex>)
    returns (r: int)
    requires v.Length == MaxSlots
    modifies v
    ensures r == Correction(o, hIsInf, eta, img, mag).code
    ensures v[..NumSGFVDs(o)] == PartialSums(o, img, Correction(o, hIsInf, eta, img, mag).images)
    ensures v[NumSGFVDs(o)..] == old(v[NumSGFVDs(o)..])
  {
    StartSum(o, img, eta, v);
    if hIsInf || o.maxTerms == 1 {
      return 1;
    }
    var etaFac := AddSecondImage(o, img, eta, v);
    if eta == Zero || o.maxTerms == 2 {
      return 1;
    }
    var refVals := [mag(v[SGF_PHI]), mag(v[SGF_DRPHI]), mag(v[SGF_DZPHI])];
    r := SeriesLoop(o, img, mag, ConvergedFn(o, img, mag), eta, etaFac, v, refVals);
  }


  /**
    As written, check p compares |Vn[Index]| with RefVals[Index], where
    Index is the Green-function slot of component p, while RefVals holds
    the three references at positions 0, 1 and 2.  None stands for a read
    past the end of RefVals.
  */
  function RefReadAsWritten(refVals: seq<real>, p: nat): (r: Option<real>)
    ensures r.Some? <==> ComponentSlot(p) < |refVals|
  {
    if ComponentSlot(p) < |refVals| then Some(refVals[ComponentSlot(p)]) else None
  }

  /**
    The as-written read is wrong for every check: the Phi check reads the
    dPhi/dRho reference, and the two derivative checks read past the
    three-entry array.
  */
  lemma RefReadAsWrittenWrong(refVals: seq<real>)
    requires |refVals| == 3
    ensures RefReadAsWritten(refVals, 0) == Some(refVals[1])
    ensures RefReadAsWritten(refVals, 1).None? && RefReadAsWritten(refVals, 2).None?
  {
  }

  /**
    As written, the output is cleared over NumSGFs entries only, and the
    scratch buffer Vn over NumSGFVDs bytes, i.e. NumSGFVDs/16 complex
    entries; both accumulate over NumSGFVDs entries.
  */
  function ClearedEntriesAsWritten(o: ScalarGFOptions): (counts: (nat, nat))
    ensures counts.0 <= NumSGFVDs(o) && counts.1 < NumSGFVDs(o)
  {
    (NumSGFs(o.ppIsOnly), NumSGFVDs(o) / 16)
  }

  /**
    With a derivative requested the output keeps NumSGFVDs - NumSGFs stale
    entries, and the scratch buffer is never cleared entirely (with the
    defaults, not at all).
  */
  lemma ClearedTooFew(o: ScalarGFOptions)
    ensures o.needDerivatives != {} ==> ClearedEntriesAsWritten(o).0 < NumSGFVDs(o)
    ensures ClearedEntriesAsWritten(DefaultSGFOptions).1 == 0
  {
    if o.needDerivatives != {} {
      var d :| d in o.needDerivatives;
      assert d == DRho || d == Dz;
    }
  }

  // ---------------------------------------------------------------------
  // The Fourier-space integrand (GetVTwiddle_MOI)
  // ---------------------------------------------------------------------

  /** The value GetVTwiddle_MOI leaves in slot i. */
  function VTwiddleSlot(o: ScalarGFOptions, zFactor: (nat, nat) -> Complex, rhoFactor: (nat, nat) -> Complex, i: nat): Complex
  {
    Mul(zFactor(DzOf(o, i), SgfOf(o, i)), rhoFactor(DRhoOf(o, i), SgfOf(o, i)))
  }

  /** Slot (dz, dRho, nSGF) of the integrand is zFactors[dz][nSGF] * RhoFactors[dRho][nSGF]. */
  lemma VTwiddleLayout(o: ScalarGFOptions, zFactor: (nat, nat) -> Complex, rhoFactor: (nat, nat) -> Complex)
    ensures forall dz: nat, dRho: nat, s: nat :: dz <= DzMax(o) && dRho <= DRhoMax(o) && s < NumSGFs(o.ppIsOnly) ==>
              SlotOf(o, dz, dRho, s) < NumSGFVDs(o) &&
              VTwiddleSlot(o, zFactor, rhoFactor, SlotOf(o, dz, dRho, s)) == Mul(zFactor(dz, s), rhoFactor(dRho, s))
  {
    forall dz: nat, dRho: nat, s: nat | dz <= DzMax(o) && dRho <= DRhoMax(o) && s < NumSGFs(o.ppIsOnly)
      ensures SlotOf(o, dz, dRho, s) < NumSGFVDs(o) &&
              VTwiddleSlot(o, zFactor, rhoFactor, SlotOf(o, dz, dRho, s)) == Mul(zFactor(dz, s), rhoFactor(dRho, s))
    {
      SlotFacts(o, dz, dRho, s);
    }
  }

  /**
    The final loop of GetVTwiddle_MOI: slot (dz, dRho, nSGF) gets
    zFactors[dz][nSGF] * RhoFactors[dRho][nSGF]; when q == 0 all NumSGFVDs
    slots are cleared instead.  The factors are inputs.
  */
  method GetVTwiddle(o: ScalarGFOptions, qIsZero: bool, zFactor: (nat, nat) -> Complex, rhoFactor: (nat, nat) -> Complex,
                     vt: array<Complex>)
    requires NumSGFVDs(o) <= vt.Length
    modifies vt
    ensures forall i :: 0 <= i < NumSGFVDs(o) ==>
              vt[i] == if qIsZero then Zero else VTwiddleSlot(o, zFactor, rhoFactor, i)
    ensures forall i :: NumSGFVDs(o) <= i < vt.Length ==> vt[i] == old(vt[i])
  {
    var numSGFVDs := CountSGFVDs(o);
    if qIsZero {
      ClearSlots(vt, numSGFVDs);
      return;
    }
    var numSGFs := NumSGFs(o.ppIsOnly);
    var nvd := 0;
    var dz := 0;
    while dz <= DzMax(o)
      invariant dz <= DzMax(o) + 1 && nvd == VdIndex(o, dz, 0)
      invariant forall i :: 0 <= i < SlotOf(o, dz, 0, 0) ==> vt[i] == VTwiddleSlot(o, zFactor, rhoFactor, i)
      invariant forall i :: SlotOf(o, dz, 0, 0) <= i < vt.Length ==> vt[i] == old(vt[i])
    {
      var dRho := 0;
      while dRho <= DRhoMax(o)
        invariant dRho <= DRhoMax(o) + 1 && nvd == VdIndex(o, dz, dRho)
        invariant forall i :: 0 <= i < SlotOf(o, dz, dRho, 0) ==> vt[i] == VTwiddleSlot(o, zFactor, rhoFactor, i)
        invariant forall i :: SlotOf(o, dz, dRho, 0) <= i < vt.Length ==> vt[i] == old(vt[i])
      {
        SlotFacts(o, dz, dRho, numSGFs - 1);
        FillBlock(o, dz, dRho, zFactor, rhoFactor, vt);
        dRho := dRho + 1;
        nvd := nvd + 1;
      }
      dz := dz + 1;
    }
  }

  /** One (dz, dRho) block of the final loop: entry nvd of function nSGF goes to slot nvd*NumSGFs+nSGF. */
  method FillBlock(o: ScalarGFOptions, dz: nat, dRho: nat, zFactor: (nat, nat) -> Complex, rhoFactor: (nat, nat) -> Complex,
                   vt: array<Complex>)
    requires dz <= DzMax(o) && dRho <= DRhoMax(o)
    requires SlotOf(o, dz, dRho, 0) + NumSGFs(o.ppIsOnly) <= NumSGFVDs(o) <= vt.Length
    modifies vt
    ensures forall i :: 0 <= i < vt.Length ==>
              vt[i] == if SlotOf(o, dz, dRho, 0) <= i < SlotOf(o, dz, dRho, 0) + NumSGFs(o.ppIsOnly)
                       then VTwiddleSlot(o, zFactor, rhoFactor, i) else old(vt[i])
  {
    var base := SlotOf(o, dz, dRho, 0);
    var nSGF := 0;
    while nSGF < NumSGFs(o.ppIsOnly)
      invariant nSGF <= NumSGFs(o.ppIsOnly)
      invariant forall i :: 0 <= i < vt.Length ==>
                  vt[i] == if base <= i < base + nSGF then VTwiddleSlot(o, zFactor, rhoFactor, i) else old(vt[i])
    {
      SlotFacts(o, dz, dRho, nSGF);
      vt[base + nSGF] := Mul(zFactor(dz, nSGF), rhoFactor(dRho, nSGF));
      nSGF := nSGF + 1;
    }
  }
}
