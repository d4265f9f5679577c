/**
  RWGGeometry: the list of objects (surfaces) of a scattering geometry and
  the bookkeeping built over it — the regions, the exterior medium, the
  nesting order, the basis-function and panel offsets, the Mate[] table of
  identical objects — and the operations that look objects up by label and
  move them.

  The top-level line loop of the constructor (which reads MEDIUM, MATERIAL,
  REGION and OBJECT sections and builds the surfaces) is not part of this
  model: the constructor here receives the surfaces it read and the name
  the MEDIUM section gave.
*/
module Geometry {
  import opened Text
  import opened GTransformation
  import TransformationSection
  import opened Surface
  import opened Nesting

  /* ---------------------------------------------------------------- */
  /* looking objects up by label                                      */
  /* ---------------------------------------------------------------- */

  /** The first object at or after no whose label equals lbl (ignoring case); -1 when there is none. */
  function FindFrom(objs: seq<RWGSurface>, lbl: string, no: nat): (r: int)
    requires no <= |objs|
    ensures r == -1 || no <= r < |objs|
    ensures r >= 0 ==> SameIgnoringCase(lbl, objs[r].surfaceLabel)
    ensures forall k :: no <= k < |objs| && (r == -1 || k < r) ==> !SameIgnoringCase(lbl, objs[k].surfaceLabel)
    decreases |objs| - no
  {
    if no == |objs| then -1
    else if SameIgnoringCase(lbl, objs[no].surfaceLabel) then no
    else FindFrom(objs, lbl, no + 1)
  }

  /** The index of the object labelled lbl, or -1. */
  function FindLabel(objs: seq<RWGSurface>, lbl: string): int
  {
    FindFrom(objs, lbl, 0)
  }

  /** The two names that stand for the exterior medium rather than an object. */
  predicate IsMediumName(lbl: string)
  {
    SameIgnoringCase(lbl, "EXTERIOR") || SameIgnoringCase(lbl, "MEDIUM")
  }

  lemma SameIgnoringCaseTransitive(a: string, b: string, c: string)
    requires SameIgnoringCase(a, b) && SameIgnoringCase(b, c)
    ensures SameIgnoringCase(a, c)
  {
    forall i | 0 <= i < |a|
      ensures Lower(a[i]) == Lower(c[i])
    {
      assert Lower(a[i]) == Lower(b[i]);
    }
  }

  /** Labels that differ only in case find the same object. */
  lemma {:induction false} FindFromIgnoresCase(objs: seq<RWGSurface>, a: string, b: string, no: nat)
    requires no <= |objs| && SameIgnoringCase(a, b)
    ensures FindFrom(objs, a, no) == FindFrom(objs, b, no)
    decreases |objs| - no
  {
    if no < |objs| {
      var l := objs[no].surfaceLabel;
      if SameIgnoringCase(a, l) {
        SameIgnoringCaseSymmetric(a, b);
        SameIgnoringCaseTransitive(b, a, l);
      } else if SameIgnoringCase(b, l) {
        SameIgnoringCaseTransitive(a, b, l);
      } else {
        FindFromIgnoresCase(objs, a, b, no + 1);
      }
    }
  }

  /* ---------------------------------------------------------------- */
  /* transformations addressed to one object                          */
  /* ---------------------------------------------------------------- */

  /** The transformations among the first n entries of gtc whose label names object no, in order. */
  function AddressedTo(objs: seq<RWGSurface>, gtc: TransformationSection.GTComplex, no: int, n: nat): seq<Transformation>
    requires n <= |gtc.objectLabels| && TransformationSection.Consistent(gtc)
  {
    if n == 0 then []
    else AddressedTo(objs, gtc, no, n - 1) +
         (if FindLabel(objs, gtc.objectLabels[n - 1]) == no then [gtc.gts[n - 1]] else [])
  }

  /** Every transformation addressed to an object is one of the complex's, so well formed. */
  lemma {:induction false} AddressedToWellFormed(objs: seq<RWGSurface>, gtc: TransformationSection.GTComplex, no: int, n: nat)
    requires n <= |gtc.objectLabels| && TransformationSection.Consistent(gtc)
    ensures forall k :: 0 <= k < |AddressedTo(objs, gtc, no, n)| ==> WellFormed(AddressedTo(objs, gtc, no, n)[k])
  {
    if n > 0 {
      AddressedToWellFormed(objs, gtc, no, n - 1);
    }
  }

  /** The GT a surface holds after Transform(d) for each d of ds in turn. */
  function Accumulate(gt: Option<Transformation>, ds: seq<Transformation>): Option<Transformation>
  {
    if |ds| == 0 then gt
    else Some(StoredAfter(Accumulate(gt, ds[..|ds| - 1]), ds[|ds| - 1]))
  }

  /** Points moved by each d of ds in turn. */
  function MapAll(ds: seq<Transformation>, s: seq<real>, nx: nat): (r: seq<real>)
    requires 3 * nx <= |s|
    ensures |r| == |s|
  {
    if |ds| == 0 then s
    else MapPoints(ds[|ds| - 1], MapAll(ds[..|ds| - 1], s, nx), nx)
  }

  lemma {:induction false} AccumulateWellFormed(gt: Option<Transformation>, ds: seq<Transformation>)
    requires gt.Some? ==> WellFormed(gt.value)
    requires forall k :: 0 <= k < |ds| ==> WellFormed(ds[k])
    ensures Accumulate(gt, ds).Some? ==> WellFormed(Accumulate(gt, ds).value)
  {
    if |ds| > 0 {
      AccumulateWellFormed(gt, ds[..|ds| - 1]);
    }
  }

  /** One more transformation at the end of the list. */
  lemma AppendStep(gt: Option<Transformation>, ds: seq<Transformation>, d: Transformation, s: seq<real>, nx: nat)
    requires 3 * nx <= |s|
    ensures Accumulate(gt, ds + [d]) == Some(StoredAfter(Accumulate(gt, ds), d))
    ensures MapAll(ds + [d], s, nx) == MapPoints(d, MapAll(ds, s, nx), nx)
  {
    assert (ds + [d])[..|ds|] == ds;
  }

  /**
    However many transformations reach a surface, its points stay the points
    it was read with, placed by the GT it holds: so UnTransform can restore them.
  */
  lemma {:induction false} AccumulateTracks(gt: Option<Transformation>, ds: seq<Transformation>, base: seq<real>, nx: nat)
    requires 3 * nx <= |base|
    requires gt.Some? ==> WellFormed(gt.value)
    requires forall k :: 0 <= k < |ds| ==> WellFormed(ds[k])
    ensures MapAll(ds, Placed(gt, base, nx), nx) == Placed(Accumulate(gt, ds), base, nx)
  {
    if |ds| > 0 {
      var front := ds[..|ds| - 1];
      AccumulateTracks(gt, front, base, nx);
      AccumulateWellFormed(gt, front);
      TransformTracks(Accumulate(gt, front), ds[|ds| - 1], base, nx);
    }
  }

  /* ---------------------------------------------------------------- */
  /* the offsets of each object's block in the global index ranges    */
  /* ---------------------------------------------------------------- */

  function Sum(counts: seq<nat>): nat
  {
    if |counts| == 0 then 0 else Sum(counts[..|counts| - 1]) + counts[|counts| - 1]
  }

  /** NumBFs of each object, in array order. */
  function BFCounts(objs: seq<RWGSurface>): seq<nat>
  {
    seq(|objs|, no requires 0 <= no < |objs| => objs[no].numBFs)
  }

  /** NumPanels of each object, in array order. */
  function PanelCounts(objs: seq<RWGSurface>): seq<nat>
  {
    seq(|objs|, no requires 0 <= no < |objs| => objs[no].panels.Length)
  }

  /** Which object's block holds global index g, and g's index inside that block. */
  function BlockOf(counts: seq<nat>, g: nat): (r: (nat, nat))
    requires g < Sum(counts)
    ensures r.0 < |counts| && r.1 < counts[r.0]
    ensures Sum(counts[..r.0]) + r.1 == g
    decreases |counts|
  {
    var n := |counts| - 1;
    if g >= Sum(counts[..n]) then (n, g - Sum(counts[..n]))
    else
      var r := BlockOf(counts[..n], g);
      assert counts[..n][..r.0] == counts[..r.0];
      r
  }

  lemma {:induction false} SumPrefix(counts: seq<nat>, no: nat)
    requires no < |counts|
    ensures Sum(counts[..no]) + counts[no] <= Sum(counts)
    decreases |counts|
  {
    var n := |counts| - 1;
    assert counts[..n + 1] == counts;
    if no < n {
      SumPrefix(counts[..n], no);
      assert counts[..n][..no] == counts[..no];
    } else {
      assert counts[..no] == counts[..n];
    }
  }

  /**
    The blocks tile the global range: index k of object no sits at
    offset[no] + k, inside the range, and maps back to (no, k).
  */
  lemma {:induction false} BlockOfOffset(counts: seq<nat>, no: nat, k: nat)
    requires no < |counts| && k < counts[no]
    ensures Sum(counts[..no]) + k < Sum(counts)
    ensures BlockOf(counts, Sum(counts[..no]) + k) == (no, k)
    decreases |counts|
  {
    SumPrefix(counts, no);
    var n := |counts| - 1;
    var g := Sum(counts[..no]) + k;
    assert counts[..n + 1] == counts;
    if no < n {
      SumPrefix(counts[..n], no);
      assert counts[..n][..no] == counts[..no];
      assert counts[..n][no] == counts[no];
      BlockOfOffset(counts[..n], no, k);
    } else {
      assert counts[..no] == counts[..n];
    }
  }

  /**
    The offset loop of the constructor: BFIndexOffset[no] and
    PanelIndexOffset[no] are the numbers of basis functions and panels of
    the objects before no.
  */
  method ComputeOffsets(objects: array<RWGSurface>) returns (bfOffset: array<int>, panelOffset: array<int>)
    requires objects.Length >= 1
    ensures fresh(bfOffset) && fresh(panelOffset) && bfOffset != panelOffset
    ensures bfOffset.Length == panelOffset.Length == objects.Length
    ensures forall no :: 0 <= no < objects.Length ==>
              bfOffset[no] == Sum(BFCounts(objects[..])[..no]) &&
              panelOffset[no] == Sum(PanelCounts(objects[..])[..no])
  {
    ghost var bfs := BFCounts(objects[..]);
    ghost var nps := PanelCounts(objects[..]);
    bfOffset := new int[objects.Length];
    panelOffset := new int[objects.Length];
    bfOffset[0], panelOffset[0] := 0, 0;
    var no := 1;
    while no < objects.Length
      invariant 1 <= no <= objects.Length
      invariant forall k :: 0 <= k < no ==> bfOffset[k] == Sum(bfs[..k]) && panelOffset[k] == Sum(nps[..k])
    {
      assert bfs[..no][..no - 1] == bfs[..no - 1];
      assert nps[..no][..no - 1] == nps[..no - 1];
      bfOffset[no] := bfOffset[no - 1] + objects[no - 1].numBFs;
      panelOffset[no] := panelOffset[no - 1] + objects[no - 1].panels.Length;
      no := no + 1;
    }
  }

  /* ---------------------------------------------------------------- */
  /* Mate[]: the first earlier object identical to each object        */
  /* ---------------------------------------------------------------- */

  /** Same mesh file and same material name (both compared exactly, as strcmp does). */
  predicate Identical(a: RWGSurface, b: RWGSurface)
  {
    a.meshFileName == b.meshFileName && a.materialName == b.materialName
  }

  /** The first object in nop .. no-1 identical to object no, or -1. */
  function MateFrom(objs: seq<RWGSurface>, no: nat, nop: nat): (r: int)
    requires nop <= no < |objs|
    ensures r == -1 || nop <= r < no
    ensures r >= 0 ==> Identical(objs[no], objs[r])
    ensures forall k :: nop <= k < no && (r == -1 || k < r) ==> !Identical(objs[no], objs[k])
    decreases no - nop
  {
    if nop == no then -1
    else if Identical(objs[no], objs[nop]) then nop
    else MateFrom(objs, no, nop + 1)
  }

  function MateOf(objs: seq<RWGSurface>, no: nat): int
    requires no < |objs|
  {
    MateFrom(objs, no, 0)
  }

  /** The object that stands for no's class of identical objects: its mate, or itself. */
  function Representative(objs: seq<RWGSurface>, no: nat): nat
    requires no < |objs|
  {
    if MateOf(objs, no) == -1 then no else MateOf(objs, no)
  }

  /**
    Mate[] picks one representative per class: identical objects have the
    same one, it is the first of them, and it has no mate of its own.
  */
  lemma MateClasses(objs: seq<RWGSurface>, i: nat, j: nat)
    requires i < |objs| && j < |objs|
    ensures Identical(objs[i], objs[j]) <==> Representative(objs, i) == Representative(objs, j)
    ensures Representative(objs, i) <= i && MateOf(objs, Representative(objs, i)) == -1
  {
    var ri := Representative(objs, i);
    var rj := Representative(objs, j);
    assert Identical(objs[i], objs[ri]);
    assert Identical(objs[j], objs[rj]);
  }

  /** The Mate loop of the constructor. */
  method ComputeMate(objects: array<RWGSurface>) returns (mate: array<int>)
    requires objects.Length >= 1
    ensures fresh(mate) && mate.Length == objects.Length
    ensures forall no :: 0 <= no < objects.Length ==> mate[no] == MateOf(objects[..], no)
  {
    mate := new int[objects.Length];
    mate[0] := -1;
    var no := 1;
    while no < objects.Length
      invariant 1 <= no <= objects.Length
      invariant forall k :: 0 <= k < no ==> mate[k] == MateOf(objects[..], k)
    {
      mate[no] := -1;
      var nop := 0;
      while nop < no && mate[no] == -1
        invariant 0 <= nop <= no
        invariant forall k :: 0 <= k < no ==> mate[k] == MateOf(objects[..], k)
        invariant mate[no] == -1 ==> MateFrom(objects[..], no, nop) == MateOf(objects[..], no)
        invariant mate[no] != -1 ==> mate[no] == MateOf(objects[..], no)
      {
        if Identical(objects[no], objects[nop]) {
          mate[no] := nop;
        }
        nop := nop + 1;
      }
      no := no + 1;
    }
  }

  /** The AllPEC loop of the constructor, which stops at the first object that is not PEC. */
  method ComputeAllPEC(objects: array<RWGSurface>) returns (allPEC: bool)
    ensures allPEC <==> forall no :: 0 <= no < objects.Length ==> objects[no].isPEC
  {
    allPEC := true;
    var no := 0;
    while no < objects.Length && allPEC
      invariant 0 <= no <= objects.Length
      invariant allPEC <==> forall k :: 0 <= k < no ==> objects[k].isPEC
      invariant !allPEC ==> no > 0
    {
      if !objects[no].isPEC {
        allPEC := false;
      }
      no := no + 1;
    }
  }

  /* ---------------------------------------------------------------- */
  /* transformation lists and material overrides                      */
  /* ---------------------------------------------------------------- */

  /** "transformation requested for unknown object %s" */
  datatype GTCError = UnknownObject(objectLabel: string)

  /** The first label from noa on that names no object (GetObjectByLabel returns NULL for it). */
  function UnknownFrom(objs: seq<RWGSurface>, labels: seq<string>, noa: nat): (r: Option<string>)
    requires noa <= |labels|
    decreases |labels| - noa
  {
    if noa == |labels| then None
    else if FindLabel(objs, labels[noa]) < 0 then Some(labels[noa])
    else UnknownFrom(objs, labels, noa + 1)
  }

  /** The first unknown label of the complexes from ngtc on, in list order. */
  function FirstUnknown(objs: seq<RWGSurface>, gtcs: seq<TransformationSection.GTComplex>, ngtc: nat): Option<string>
    requires ngtc <= |gtcs|
    decreases |gtcs| - ngtc
  {
    if ngtc == |gtcs| then None
    else match UnknownFrom(objs, gtcs[ngtc].objectLabels, 0)
      case Some(l) => Some(l)
      case None => FirstUnknown(objs, gtcs, ngtc + 1)
  }

  lemma {:induction false} UnknownFromMeaning(objs: seq<RWGSurface>, labels: seq<string>, noa: nat)
    requires noa <= |labels|
    ensures UnknownFrom(objs, labels, noa).None? <==> forall k :: noa <= k < |labels| ==> FindLabel(objs, labels[k]) >= 0
    ensures UnknownFrom(objs, labels, noa).Some? ==>
              exists k :: noa <= k < |labels| && labels[k] == UnknownFrom(objs, labels, noa).value &&
                          FindLabel(objs, labels[k]) == -1 &&
                          forall j :: noa <= j < k ==> FindLabel(objs, labels[j]) >= 0
    decreases |labels| - noa
  {
    if noa < |labels| {
      UnknownFromMeaning(objs, labels, noa + 1);
      if FindLabel(objs, labels[noa]) >= 0 && UnknownFrom(objs, labels, noa + 1).Some? {
        var k :| noa + 1 <= k < |labels| && labels[k] == UnknownFrom(objs, labels, noa + 1).value &&
                 FindLabel(objs, labels[k]) == -1 &&
                 forall j :: noa + 1 <= j < k ==> FindLabel(objs, labels[j]) >= 0;
        assert forall j :: noa <= j < k ==> FindLabel(objs, labels[j]) >= 0;
      }
    }
  }

  /**
    CheckGTCList passes exactly when every label of every complex names an
    object; otherwise it reports the first label, in list order, that names
    none: every label of an earlier complex, and every earlier label of the
    same complex, names an object.
  */
  lemma {:induction false} FirstUnknownMeaning(objs: seq<RWGSurface>, gtcs: seq<TransformationSection.GTComplex>, ngtc: nat)
    requires ngtc <= |gtcs|
    ensures FirstUnknown(objs, gtcs, ngtc).None? <==>
              forall g, k :: ngtc <= g < |gtcs| && 0 <= k < |gtcs[g].objectLabels| ==>
                               FindLabel(objs, gtcs[g].objectLabels[k]) >= 0
    ensures FirstUnknown(objs, gtcs, ngtc).Some? ==>
              exists g, k :: ngtc <= g < |gtcs| && 0 <= k < |gtcs[g].objectLabels| &&
                             gtcs[g].objectLabels[k] == FirstUnknown(objs, gtcs, ngtc).value &&
                             FindLabel(objs, gtcs[g].objectLabels[k]) == -1 &&
                             (forall h, j :: ngtc <= h < g && 0 <= j < |gtcs[h].objectLabels| ==>
                                             FindLabel(objs, gtcs[h].objectLabels[j]) >= 0) &&
                             (forall j :: 0 <= j < k ==> FindLabel(objs, gtcs[g].objectLabels[j]) >= 0)
    decreases |gtcs| - ngtc
  {
    if ngtc < |gtcs| {
      UnknownFromMeaning(objs, gtcs[ngtc].objectLabels, 0);
      FirstUnknownMeaning(objs, gtcs, ngtc + 1);
      if FirstUnknown(objs, gtcs, ngtc).Some? {
        FirstUnknownAt(objs, gtcs, ngtc);
      }
    }
  }

  /** Where the reported label sits: the step of FirstUnknownMeaning that finds it, here or in a later complex. */
  lemma FirstUnknownAt(objs: seq<RWGSurface>, gtcs: seq<TransformationSection.GTComplex>, ngtc: nat)
    requires ngtc < |gtcs| && FirstUnknown(objs, gtcs, ngtc).Some?
    requires UnknownFrom(objs, gtcs[ngtc].objectLabels, 0).None? ==>
               forall k :: 0 <= k < |gtcs[ngtc].objectLabels| ==> FindLabel(objs, gtcs[ngtc].objectLabels[k]) >= 0
    requires UnknownFrom(objs, gtcs[ngtc].objectLabels, 0).Some? ==>
               exists k :: 0 <= k < |gtcs[ngtc].objectLabels| &&
                           gtcs[ngtc].objectLabels[k] == UnknownFrom(objs, gtcs[ngtc].objectLabels, 0).value &&
                           FindLabel(objs, gtcs[ngtc].objectLabels[k]) == -1 &&
                           forall j :: 0 <= j < k ==> FindLabel(objs, gtcs[ngtc].objectLabels[j]) >= 0
    requires FirstUnknown(objs, gtcs, ngtc + 1).Some? ==>
              exists g, k :: ngtc + 1 <= g < |gtcs| && 0 <= k < |gtcs[g].objectLabels| &&
                             gtcs[g].objectLabels[k] == FirstUnknown(objs, gtcs, ngtc + 1).value &&
                             FindLabel(objs, gtcs[g].objectLabels[k]) == -1 &&
                             (forall h, j :: ngtc + 1 <= h < g && 0 <= j < |gtcs[h].objectLabels| ==>
                                             FindLabel(objs, gtcs[h].objectLabels[j]) >= 0) &&
                             (forall j :: 0 <= j < k ==> FindLabel(objs, gtcs[g].objectLabels[j]) >= 0)
    ensures exists g, k :: ngtc <= g < |gtcs| && 0 <= k < |gtcs[g].objectLabels| &&
                           gtcs[g].objectLabels[k] == FirstUnknown(objs, gtcs, ngtc).value &&
                           FindLabel(objs, gtcs[g].objectLabels[k]) == -1 &&
                           (forall h, j :: ngtc <= h < g && 0 <= j < |gtcs[h].objectLabels| ==>
                                           FindLabel(objs, gtcs[h].objectLabels[j]) >= 0) &&
                           (forall j :: 0 <= j < k ==> FindLabel(objs, gtcs[g].objectLabels[j]) >= 0)
  {
    var labels := gtcs[ngtc].objectLabels;
    if UnknownFrom(objs, labels, 0).Some? {
      var k :| 0 <= k < |labels| && labels[k] == UnknownFrom(objs, labels, 0).value &&
               FindLabel(objs, labels[k]) == -1 && forall j :: 0 <= j < k ==> FindLabel(objs, labels[j]) >= 0;
      assert gtcs[ngtc].objectLabels[k] == FirstUnknown(objs, gtcs, ngtc).value;
    } else {
      var g, k :| ngtc + 1 <= g < |gtcs| && 0 <= k < |gtcs[g].objectLabels| &&
                  gtcs[g].objectLabels[k] == FirstUnknown(objs, gtcs, ngtc + 1).value &&
                  FindLabel(objs, gtcs[g].objectLabels[k]) == -1 &&
                  (forall h, j :: ngtc + 1 <= h < g && 0 <= j < |gtcs[h].objectLabels| ==>
                                  FindLabel(objs, gtcs[h].objectLabels[j]) >= 0) &&
                  (forall j :: 0 <= j < k ==> FindLabel(objs, gtcs[g].objectLabels[j]) >= 0);
      assert forall h, j :: ngtc <= h < g && 0 <= j < |gtcs[h].objectLabels| ==>
                            FindLabel(objs, gtcs[h].objectLabels[j]) >= 0;
    }
  }

  /** Eps and Mu as SetEpsMu gives them (complex numbers as real and imaginary parts). */
  datatype EpsMu = EpsMu(epsRe: real, epsIm: real, muRe: real, muIm: real)

  /** Whose material SetEpsMu(Label, ...) overrides. */
  datatype EpsMuTarget = ExteriorMedium | ObjectMedium(no: nat) | Ignored

  /**
    SetEpsMu: no label or EXTERIOR means the exterior medium; otherwise the
    object GetObjectByLabel finds; otherwise nothing (a warning).
  */
  function SetEpsMuTarget(objs: seq<RWGSurface>, lbl: Option<string>): (r: EpsMuTarget)
    ensures r == ExteriorMedium <==> lbl.None? || SameIgnoringCase(lbl.value, "EXTERIOR")
    ensures r.ObjectMedium? ==> lbl.Some? && r.no < |objs| && SameIgnoringCase(lbl.value, objs[r.no].surfaceLabel)
    ensures r == Ignored <==> lbl.Some? && !SameIgnoringCase(lbl.value, "EXTERIOR") &&
                              forall no :: 0 <= no < |objs| ==> !SameIgnoringCase(lbl.value, objs[no].surfaceLabel)
  {
    if lbl.None? || SameIgnoringCase(lbl.value, "EXTERIOR") then ExteriorMedium
    else
      var no := FindLabel(objs, lbl.value);
      if no >= 0 then ObjectMedium(no) else Ignored
  }

  /* ---------------------------------------------------------------- */
  /* the geometry                                                     */
  /* ---------------------------------------------------------------- */

  /** Distinct objects, each valid, no two sharing a point buffer. */
  predicate SurfacesSeparate(s: seq<RWGSurface>)
  {
    Distinct(s) &&
    (forall i :: 0 <= i < |s| ==> s[i].Valid()) &&
    (forall i, j :: 0 <= i < |s| && 0 <= j < |s| && i != j ==>
       s[i].vertices != s[j].vertices && s[i].vertices != s[j].centroids && s[i].centroids != s[j].centroids)
  }

  /** Reordering the objects keeps them separate. */
  lemma SeparatePermutation(a: seq<RWGSurface>, b: seq<RWGSurface>)
    requires SurfacesSeparate(a) && multiset(a) == multiset(b)
    ensures SurfacesSeparate(b)
  {
    DistinctPermutation(a, b);
    forall i | 0 <= i < |b|
      ensures exists k :: 0 <= k < |a| && a[k] == b[i]
    {
      assert b[i] in multiset(a);
    }
  }

  /**
    One object o after the transformations ds addressed to it: it is marked
    moved exactly when there is one, and its GT gt and buffers v, c are what
    they made, in order, of gt0, v0 and c0.
  */
  ghost predicate ObjectProgress(o: RWGSurface, ds: seq<Transformation>, moved: bool,
                                 gt: Option<Transformation>, v: seq<real>, c: seq<real>,
                                 gt0: Option<Transformation>, v0: seq<real>, c0: seq<real>)
  {
    3 * o.numVertices <= |v0| && 3 * o.numEdges <= |c0| &&
    moved == (|ds| > 0) &&
    gt == Accumulate(gt0, ds) &&
    v == MapAll(ds, v0, o.numVertices) &&
    c == MapAll(ds, c0, o.numEdges)
  }

  /** One more transformation d for o: marked moved, d composed into GT, points moved by d. */
  lemma ObjectStep(o: RWGSurface, ds: seq<Transformation>, d: Transformation, moved: bool,
                   gt: Option<Transformation>, v: seq<real>, c: seq<real>,
                   gt0: Option<Transformation>, v0: seq<real>, c0: seq<real>)
    requires ObjectProgress(o, ds, moved, gt, v, c, gt0, v0, c0)
    ensures ObjectProgress(o, ds + [d], true, Some(StoredAfter(gt, d)),
                           MapPoints(d, v, o.numVertices), MapPoints(d, c, o.numEdges), gt0, v0, c0)
  {
    AppendStep(gt0, ds, d, v0, o.numVertices);
    AppendStep(gt0, ds, d, c0, o.numEdges);
  }

  /**
    The state of Transform(GTC) after the first n entries of gtc, on values:
    object no, with flag moved[no], GT gts[no] and buffers vs[no], cs[no],
    is what the entries naming it made of gts0[no], vs0[no] and cs0[no].
  */
  ghost predicate ProgressOn(objs: seq<RWGSurface>, gtc: TransformationSection.GTComplex, n: nat,
                             moved: seq<bool>, gts: seq<Option<Transformation>>, vs: seq<seq<real>>, cs: seq<seq<real>>,
                             gts0: seq<Option<Transformation>>, vs0: seq<seq<real>>, cs0: seq<seq<real>>)
    requires TransformationSection.Consistent(gtc) && n <= |gtc.objectLabels|
  {
    |moved| == |gts| == |vs| == |cs| == |gts0| == |vs0| == |cs0| == |objs| &&
    forall no :: 0 <= no < |objs| ==>
      ObjectProgress(objs[no], AddressedTo(objs, gtc, no, n), moved[no], gts[no], vs[no], cs[no],
                     gts0[no], vs0[no], cs0[no])
  }

  /**
    Entry n of the complex changes only the object its label names (none
    for an unknown label): that one is marked moved and moved by the entry's
    transformation, on top of what the earlier entries did.
  */
  lemma ProgressStep(objs: seq<RWGSurface>, gtc: TransformationSection.GTComplex, n: nat,
                     moved: seq<bool>, gts: seq<Option<Transformation>>, vs: seq<seq<real>>, cs: seq<seq<real>>,
                     gts0: seq<Option<Transformation>>, vs0: seq<seq<real>>, cs0: seq<seq<real>>)
    requires TransformationSection.Consistent(gtc) && n < |gtc.objectLabels|
    requires ProgressOn(objs, gtc, n, moved, gts, vs, cs, gts0, vs0, cs0)
    ensures var w, d := FindLabel(objs, gtc.objectLabels[n]), gtc.gts[n];
            if w < 0 then ProgressOn(objs, gtc, n + 1, moved, gts, vs, cs, gts0, vs0, cs0)
            else ProgressOn(objs, gtc, n + 1, moved[w := true], gts[w := Some(StoredAfter(gts[w], d))],
                            vs[w := MapPoints(d, vs[w], objs[w].numVertices)],
                            cs[w := MapPoints(d, cs[w], objs[w].numEdges)], gts0, vs0, cs0)
  {
    var w, d := FindLabel(objs, gtc.objectLabels[n]), gtc.gts[n];
    if w < 0 {
      forall no | 0 <= no < |objs|
        ensures ObjectProgress(objs[no], AddressedTo(objs, gtc, no, n + 1), moved[no], gts[no], vs[no], cs[no],
                               gts0[no], vs0[no], cs0[no])
      {
        AddressedToStep(objs, gtc, no, n);
      }
    } else {
      ProgressStepNamed(objs, gtc, n, w, moved, gts, vs, cs, gts0, vs0, cs0);
    }
  }

  /** Entry n adds its transformation to the list of the object it names, and to no other. */
  lemma AddressedToStep(objs: seq<RWGSurface>, gtc: TransformationSection.GTComplex, no: int, n: nat)
    requires TransformationSection.Consistent(gtc) && n < |gtc.objectLabels|
    ensures AddressedTo(objs, gtc, no, n + 1) ==
            if no == FindLabel(objs, gtc.objectLabels[n]) then AddressedTo(objs, gtc, no, n) + [gtc.gts[n]]
            else AddressedTo(objs, gtc, no, n)
  {
    assert AddressedTo(objs, gtc, no, n) + [] == AddressedTo(objs, gtc, no, n);
  }

  /** ProgressStep for an entry whose label names object w. */
  lemma ProgressStepNamed(objs: seq<RWGSurface>, gtc: TransformationSection.GTComplex, n: nat, w: nat,
                          moved: seq<bool>, gts: seq<Option<Transformation>>, vs: seq<seq<real>>, cs: seq<seq<real>>,
                          gts0: seq<Option<Transformation>>, vs0: seq<seq<real>>, cs0: seq<seq<real>>)
    requires TransformationSection.Consistent(gtc) && n < |gtc.objectLabels|
    requires ProgressOn(objs, gtc, n, moved, gts, vs, cs, gts0, vs0, cs0)
    requires w == FindLabel(objs, gtc.objectLabels[n])
    ensures ProgressOn(objs, gtc, n + 1, moved[w := true], gts[w := Some(StoredAfter(gts[w], gtc.gts[n]))],
                       vs[w := MapPoints(gtc.gts[n], vs[w], objs[w].numVertices)],
                       cs[w := MapPoints(gtc.gts[n], cs[w], objs[w].numEdges)], gts0, vs0, cs0)
  {
    var d := gtc.gts[n];
    var moved', gts' := moved[w := true], gts[w := Some(StoredAfter(gts[w], d))];
    var vs', cs' := vs[w := MapPoints(d, vs[w], objs[w].numVertices)], cs[w := MapPoints(d, cs[w], objs[w].numEdges)];
    forall no | 0 <= no < |objs|
      ensures ObjectProgress(objs[no], AddressedTo(objs, gtc, no, n + 1), moved'[no], gts'[no], vs'[no], cs'[no],
                             gts0[no], vs0[no], cs0[no])
    {
      AddressedToStep(objs, gtc, no, n);
      if no == w {
        ObjectStep(objs[w], AddressedTo(objs, gtc, w, n), d, moved[w], gts[w], vs[w], cs[w], gts0[w], vs0[w], cs0[w]);
      }
    }
  }

  /** The vertex and edge-centroid buffers of the surfaces s. */
  ghost function BuffersOf(s: seq<RWGSurface>): set<array<real>>
  {
    (set no | 0 <= no < |s| :: s[no].vertices) + (set no | 0 <= no < |s| :: s[no].centroids)
  }

  /** The constructor's work on the object array: the nesting sort, then AllPEC, the offsets and Mate. */
  method Arrange(objects: array<RWGSurface>, contains: (RWGSurface, RWGSurface) -> bool)
    returns (allPEC: bool, bfOffset: array<int>, panelOffset: array<int>, mate: array<int>)
    requires objects.Length >= 1
    requires StrictOrder(objects[..], contains) && Nested(objects[..], contains)
    requires forall no :: 0 <= no < objects.Length ==> objects[no].containing == null
    requires SurfacesSeparate(objects[..])
    modifies objects, objects[..]
    ensures SurfacesSeparate(objects[..]) && multiset(objects[..]) == multiset(old(objects[..]))
    ensures TopoSorted(objects[..], objects.Length, contains) && ContainersValid(objects[..], contains)
    ensures forall no :: 0 <= no < objects.Length ==> Innermost(objects[..], objects[no], objects[no].containing, contains)
    ensures allPEC <==> forall no :: 0 <= no < objects.Length ==> objects[no].isPEC
    ensures bfOffset.Length == panelOffset.Length == mate.Length == objects.Length
    ensures forall no :: 0 <= no < objects.Length ==>
              bfOffset[no] == Sum(BFCounts(objects[..])[..no]) &&
              panelOffset[no] == Sum(PanelCounts(objects[..])[..no]) &&
              mate[no] == MateOf(objects[..], no)
  {
    ghost var before := objects[..];
    SortByNesting(objects, contains);
    SeparatePermutation(before, objects[..]);
    allPEC := ComputeAllPEC(objects);
    bfOffset, panelOffset := ComputeOffsets(objects);
    mate := ComputeMate(objects);
  }

  class RWGGeometry {
    /**
      Objects[0 .. NumObjects-1] in nesting order.  Only the constructor's
      sort reorders the array, so once built it is kept as a sequence.
    */
    const objects: seq<RWGSurface>
    /** RegionLabels[] and the names of RegionMPs[], one entry per region. */
    var regionLabels: seq<string>
    var regionMaterials: seq<string>
    /** The name of ExteriorMP. */
    var exteriorMaterial: string
    var allPEC: bool
    const bfIndexOffset: array<int>
    const panelIndexOffset: array<int>
    const mate: array<int>
    const objectMoved: array<bool>
    /** Eps and Mu fixed by SetEpsMu, for the exterior and for each object's MP. */
    var exteriorEpsMu: Option<EpsMu>
    var objectEpsMu: seq<Option<EpsMu>>
    /** The vertex and edge-centroid buffers of all objects: what moving them changes. */
    ghost const buffers: set<array<real>>

    ghost predicate Valid()
      reads this
    {
      |regionLabels| == |regionMaterials| &&
      objectMoved.Length == |objects| && |objectEpsMu| == |objects| &&
      SurfacesSeparate(objects) &&
      buffers == BuffersOf(objects)
    }

    /**
      The constructor, once the file is read: the first region is the
      exterior (VACUUM); ExteriorMP is the MEDIUM section's material when it
      named one, VACUUM otherwise; then the nesting sort of the object array,
      AllPEC, the offsets and Mate.  contains(A, B) is A->Contains(B).
    */
    constructor (objects: array<RWGSurface>, mediumMaterial: string, contains: (RWGSurface, RWGSurface) -> bool)
      requires objects.Length >= 1
      requires StrictOrder(objects[..], contains) && Nested(objects[..], contains)
      requires forall no :: 0 <= no < objects.Length ==> objects[no].containing == null
      requires SurfacesSeparate(objects[..])
      modifies objects, objects[..]
      ensures Valid() && this.objects == objects[..]
      ensures bfIndexOffset.Length == panelIndexOffset.Length == mate.Length == objects.Length
      ensures regionLabels == ["EXTERIOR"] && regionMaterials == ["VACUUM"]
      ensures exteriorMaterial == if mediumMaterial == "" then "VACUUM" else mediumMaterial
      ensures multiset(objects[..]) == multiset(old(objects[..]))
      ensures TopoSorted(objects[..], objects.Length, contains) && ContainersValid(objects[..], contains)
      ensures forall no :: 0 <= no < objects.Length ==> Innermost(objects[..], objects[no], objects[no].containing, contains)
      ensures allPEC <==> forall no :: 0 <= no < objects.Length ==> objects[no].isPEC
      ensures forall no :: 0 <= no < objects.Length ==>
                bfIndexOffset[no] == Sum(BFCounts(objects[..])[..no]) &&
                panelIndexOffset[no] == Sum(PanelCounts(objects[..])[..no]) &&
                mate[no] == MateOf(objects[..], no)
    {
      var pec, bfs, nps, m := Arrange(objects, contains);
      this.objects := objects[..];
      this.allPEC := pec;
      this.bfIndexOffset := bfs;
      this.panelIndexOffset := nps;
      this.mate := m;
      this.objectMoved := new bool[objects.Length](_ => false);
      this.exteriorMaterial := if mediumMaterial == "" then "VACUUM" else mediumMaterial;
      // AddRegion("EXTERIOR", VACUUM) on the empty region list
      this.regionLabels := ["EXTERIOR"];
      this.regionMaterials := ["VACUUM"];
      this.exteriorEpsMu := None;
      this.objectEpsMu := seq(objects.Length, _ => None);
      this.buffers := BuffersOf(objects[..]);
    }

    /** AddRegion: one more region, with its label and material, after the existing ones. */
    method AddRegion(regionLabel: string, materialName: string)
      modifies this
      ensures regionLabels == old(regionLabels) + [regionLabel]
      ensures regionMaterials == old(regionMaterials) + [materialName]
      ensures exteriorMaterial == old(exteriorMaterial) && allPEC == old(allPEC)
      ensures exteriorEpsMu == old(exteriorEpsMu) && objectEpsMu == old(objectEpsMu)
    {
      regionLabels := regionLabels + [regionLabel];
      regionMaterials := regionMaterials + [materialName];
    }

    /**
      GetObjectByLabel(Label, &pno): the object labelled Label (ignoring
      case) and its index; for no label, or EXTERIOR or MEDIUM, no object
      and index -1; for any other unknown label, no object and index -2.
    */
    method GetObjectByLabel(lbl: Option<string>) returns (o: RWGSurface?, pno: int)
      ensures lbl.None? ==> o == null && pno == -1
      ensures lbl.Some? && FindLabel(objects, lbl.value) >= 0 ==>
                pno == FindLabel(objects, lbl.value) && o == objects[pno]
      ensures lbl.Some? && FindLabel(objects, lbl.value) < 0 ==>
                o == null && pno == (if IsMediumName(lbl.value) then -1 else -2)
    {
      pno := -2;
      if lbl.None? {
        return null, -1;
      }
      var no := 0;
      while no < |objects|
        invariant 0 <= no <= |objects|
        invariant FindFrom(objects, lbl.value, no) == FindLabel(objects, lbl.value)
      {
        if SameIgnoringCase(lbl.value, objects[no].surfaceLabel) {
          return objects[no], no;
        }
        no := no + 1;
      }
      if IsMediumName(lbl.value) {
        pno := -1;
      }
      return null, pno;
    }

    /**
      After the first n entries of gtc, starting from GTs gts0 and buffers
      vs0, cs0: each object is marked moved exactly when one of those
      entries named it, and holds what they moved it to.
    */
    ghost predicate Progress(gtc: TransformationSection.GTComplex, n: nat,
                             gts0: seq<Option<Transformation>>, vs0: seq<seq<real>>, cs0: seq<seq<real>>)
      requires Valid() && TransformationSection.Consistent(gtc) && n <= |gtc.objectLabels|
      reads this, objectMoved, objects, buffers
    {
      ProgressOn(objects, gtc, n, objectMoved[..], GTs(), VertexBuffers(), CentroidBuffers(), gts0, vs0, cs0)
    }

    /** Object which is moved by d and marked moved; every other object is as it was. */
    method MoveObject(which: nat, d: Transformation)
      requires Valid() && which < |objects|
      modifies objectMoved, objects[which], objects[which].vertices, objects[which].centroids
      ensures objectMoved[..] == old(objectMoved[..])[which := true]
      ensures GTs() == old(GTs())[which := Some(StoredAfter(old(objects[which].gt), d))]
      ensures VertexBuffers() ==
                old(VertexBuffers())[which := MapPoints(d, old(objects[which].vertices[..]), objects[which].numVertices)]
      ensures CentroidBuffers() ==
                old(CentroidBuffers())[which := MapPoints(d, old(objects[which].centroids[..]), objects[which].numEdges)]
    {
      objects[which].Transform(d);
      objectMoved[which] := true;
    }

    /** One pass of the loop of Transform: entry noa of the complex. */
    method TransformStep(gtc: TransformationSection.GTComplex, noa: nat,
                         ghost gts0: seq<Option<Transformation>>, ghost vs0: seq<seq<real>>, ghost cs0: seq<seq<real>>)
      requires Valid() && TransformationSection.Consistent(gtc) && noa < |gtc.objectLabels|
      requires Progress(gtc, noa, gts0, vs0, cs0)
      modifies objectMoved, objects, buffers
      ensures Progress(gtc, noa + 1, gts0, vs0, cs0)
    {
      ProgressStep(objects, gtc, noa, objectMoved[..], GTs(), VertexBuffers(), CentroidBuffers(), gts0, vs0, cs0);
      var o, which := GetObjectByLabel(Some(gtc.objectLabels[noa]));
      if o != null {
        MoveObject(which, gtc.gts[noa]);
      }
    }

    /** The GT of every object, in order. */
    ghost function GTs(): (r: seq<Option<Transformation>>)
      reads this, objects
      ensures |r| == |objects| && forall no :: 0 <= no < |objects| ==> r[no] == objects[no].gt
    {
      seq(|objects|, no requires 0 <= no < |objects| reads objects => objects[no].gt)
    }

    /** The vertex buffer of every object, in order. */
    ghost function VertexBuffers(): (r: seq<seq<real>>)
      requires Valid()
      reads this, buffers
      ensures |r| == |objects| && forall no :: 0 <= no < |objects| ==> r[no] == objects[no].vertices[..]
    {
      seq(|objects|, no requires 0 <= no < |objects|
                        reads buffers => objects[no].vertices[..])
    }

    /** The edge-centroid buffer of every object, in order. */
    ghost function CentroidBuffers(): (r: seq<seq<real>>)
      requires Valid()
      reads this, buffers
      ensures |r| == |objects| && forall no :: 0 <= no < |objects| ==> r[no] == objects[no].centroids[..]
    {
      seq(|objects|, no requires 0 <= no < |objects|
                        reads buffers => objects[no].centroids[..])
    }

    /** Clear every ObjectMoved flag: no object has moved yet. */
    method ClearObjectMoved(gtc: TransformationSection.GTComplex)
      requires Valid() && TransformationSection.Consistent(gtc)
      modifies objectMoved
      ensures Progress(gtc, 0, GTs(), VertexBuffers(), CentroidBuffers())
    {
      forall no | 0 <= no < objectMoved.Length {
        objectMoved[no] := false;
      }
    }

    /**
      Transform(GTC): clear ObjectMoved, then move each object named in the
      complex by its transformation and mark it moved.  An object named
      twice is moved twice; a label naming no object is skipped.
    */
    method Transform(gtc: TransformationSection.GTComplex)
      requires Valid() && TransformationSection.Consistent(gtc)
      modifies objectMoved, objects,
               buffers
      ensures Progress(gtc, |gtc.objectLabels|, old(GTs()), old(VertexBuffers()), old(CentroidBuffers()))
    {
      ghost var gts0, vs0, cs0 := GTs(), VertexBuffers(), CentroidBuffers();
      ClearObjectMoved(gtc);
      var noa := 0;
      while noa < |gtc.objectLabels|
        invariant 0 <= noa <= |gtc.objectLabels|
        invariant Progress(gtc, noa, gts0, vs0, cs0)
      {
        TransformStep(gtc, noa, gts0, vs0, cs0);
        noa := noa + 1;
      }
    }

    /** UnTransform: every object undoes its own GT. */
    method UnTransform()
      requires Valid()
      modifies objects,
               buffers
      ensures forall no :: 0 <= no < |objects| ==>
                var o := objects[no];
                (old(o.gt).None? ==> o.gt == None && o.vertices[..] == old(o.vertices[..]) &&
                                     o.centroids[..] == old(o.centroids[..])) &&
                (old(o.gt).Some? ==> o.gt == Some(IdentityTransformation()) &&
                                     o.vertices[..] == UnMapPoints(old(o.gt).value, old(o.vertices[..]), o.numVertices) &&
                                     o.centroids[..] == UnMapPoints(old(o.gt).value, old(o.centroids[..]), o.numEdges))
    {
      var no := 0;
      while no < |objects|
        invariant 0 <= no <= |objects|
        invariant forall k :: 0 <= k < no ==>
                    var o := objects[k];
                    (old(o.gt).None? ==> o.gt == None && o.vertices[..] == old(o.vertices[..]) &&
                                         o.centroids[..] == old(o.centroids[..])) &&
                    (old(o.gt).Some? ==> o.gt == Some(IdentityTransformation()) &&
                                         o.vertices[..] == UnMapPoints(old(o.gt).value, old(o.vertices[..]), o.numVertices) &&
                                         o.centroids[..] == UnMapPoints(old(o.gt).value, old(o.centroids[..]), o.numEdges))
        invariant forall k :: no <= k < |objects| ==>
                    var o := objects[k];
                    o.gt == old(o.gt) && o.vertices[..] == old(o.vertices[..]) && o.centroids[..] == old(o.centroids[..])
      {
        objects[no].UnTransform();
        no := no + 1;
      }
    }

    /**
      CheckGTCList: the first label, over all complexes in order, that names
      no object; none when all of them do.
    */
    method CheckGTCList(gtcs: seq<TransformationSection.GTComplex>) returns (err: Option<GTCError>)
      ensures err.None? <==> FirstUnknown(objects, gtcs, 0).None?
      ensures err.Some? ==> err.value.objectLabel == FirstUnknown(objects, gtcs, 0).value
    {
      var ngtc := 0;
      while ngtc < |gtcs|
        invariant 0 <= ngtc <= |gtcs|
        invariant FirstUnknown(objects, gtcs, ngtc) == FirstUnknown(objects, gtcs, 0)
      {
        var labels := gtcs[ngtc].objectLabels;
        var noa := 0;
        while noa < |labels|
          invariant 0 <= noa <= |labels|
          invariant UnknownFrom(objects, labels, noa) == UnknownFrom(objects, labels, 0)
        {
          var o, _ := GetObjectByLabel(Some(labels[noa]));
          if o == null {
            return Some(UnknownObject(labels[noa]));
          }
          noa := noa + 1;
        }
        ngtc := ngtc + 1;
      }
      return None;
    }

    /**
      SetEpsMu(Label, Eps, Mu): override the exterior's or one object's
      material; an unknown label changes nothing.  SetEpsMu(Eps, Mu) is the
      call with no label, and SetEps(...) the call with Mu = 1.
    */
    method SetEpsMu(lbl: Option<string>, v: EpsMu)
      requires Valid()
      modifies this
      ensures Valid()
      ensures regionLabels == old(regionLabels) && regionMaterials == old(regionMaterials)
      ensures exteriorMaterial == old(exteriorMaterial) && allPEC == old(allPEC)
      ensures match SetEpsMuTarget(objects, lbl)
              case ExteriorMedium => exteriorEpsMu == Some(v) && objectEpsMu == old(objectEpsMu)
              case ObjectMedium(no) => exteriorEpsMu == old(exteriorEpsMu) && objectEpsMu == old(objectEpsMu)[no := Some(v)]
              case Ignored => exteriorEpsMu == old(exteriorEpsMu) && objectEpsMu == old(objectEpsMu)
    {
      if lbl.None? || SameIgnoringCase(lbl.value, "EXTERIOR") {
        exteriorEpsMu := Some(v);
      } else {
        var o, no := GetObjectByLabel(lbl);
        if o != null {
          objectEpsMu := objectEpsMu[no := Some(v)];
        }
      }
    }
  }
}
