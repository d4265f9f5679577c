/**
  GTransformation: the record (M, DX, Type) of a displacement and/or
  rotation, the routines that create, augment, reset and apply it, and
  the value-level meaning of each routine.

  The Type bit-field of the C record is modelled by its two flags
  (displacement, rotation); their numeric values live in a header that is
  not part of this model.  Every routine that changes the record in place
  is a method of the class GTransformation, proved against a pure function
  on the value Transformation; what each routine MEANS (which affine map
  results) is proved about those functions.
*/
module GTransformation {
  import opened Affine

  /** The contents of one record: M, DX and the two Type flags. */
  datatype Transformation = Transformation(m: Mat3, dx: Vec3, displacement: bool, rotation: bool)

  /**
    The map a record applies to one point: ApplyGTransformation uses M only
    when the ROTATION flag is set, and adds DX in both cases.
  */
  function Map(t: Transformation, x: Vec3): Vec3
  {
    if t.rotation then Add(MatVec(t.m, x), t.dx) else Add(x, t.dx)
  }

  /** The map UnApplyGTransformation applies: subtract DX, then multiply by M^T if rotated. */
  function UnMap(t: Transformation, x: Vec3): Vec3
  {
    var y := Sub(x, t.dx);
    if t.rotation then MatVec(Transpose(t.m), y) else y
  }

  /** Every record the routines build has M = 1 while its ROTATION flag is clear. */
  predicate WellFormed(t: Transformation)
  {
    !t.rotation ==> t.m == Identity()
  }

  /** A record that UnApply can undo: its matrix, when used, is orthogonal. */
  predicate Invertible(t: Transformation)
  {
    t.rotation ==> Orthogonal(t.m)
  }

  /** A new pure displacement (CreateOrAugmentGTransformation with GT == 0). */
  function Displacement(d: Vec3): (t: Transformation)
    ensures WellFormed(t) && Invertible(t)
    ensures t.displacement && !t.rotation
    ensures forall x :: Map(t, x) == Add(x, d)
  {
    Transformation(Identity(), d, true, false)
  }

  /** A new pure rotation by matrix r (the rotation overload with GT == 0). */
  function Rotation(r: Mat3): (t: Transformation)
    ensures WellFormed(t) && (Orthogonal(r) ==> Invertible(t))
    ensures !t.displacement && t.rotation
    ensures forall x :: Map(t, x) == MatVec(r, x)
  {
    Transformation(r, Zero(), false, true)
  }

  /** The identity record that ResetGTransformation leaves behind. */
  function IdentityTransformation(): (t: Transformation)
    ensures WellFormed(t) && Invertible(t)
    ensures forall x :: Map(t, x) == x && UnMap(t, x) == x
  {
    Transformation(Identity(), Zero(), true, false)
  }

  /** An existing record augmented by a displacement: DX += d, DISPLACEMENT set, M kept. */
  function Displaced(t: Transformation, d: Vec3): (r: Transformation)
    ensures r.m == t.m && r.rotation == t.rotation && r.displacement
    ensures WellFormed(t) ==> WellFormed(r)
    ensures Invertible(t) ==> Invertible(r)
    ensures forall x :: Map(r, x) == Add(Map(t, x), d)
  {
    t.(dx := Add(t.dx, d), displacement := true)
  }

  /** An existing record augmented by a rotation r: M := r*M, DX := r*DX, ROTATION set. */
  function Rotated(t: Transformation, r: Mat3): (res: Transformation)
    ensures res.rotation && res.displacement == t.displacement
    ensures WellFormed(res)
  {
    t.(m := MatMul(r, t.m), dx := MatVec(r, t.dx), rotation := true)
  }

  /** AugmentGTransformation as written: the Type flags of GT are never updated. */
  function ComposedAsWritten(delta: Transformation, t: Transformation): (r: Transformation)
    ensures r.displacement == t.displacement && r.rotation == t.rotation
  {
    var moved :=
      if delta.rotation then t.(m := MatMul(delta.m, t.m), dx := MatVec(delta.m, t.dx))
      else t;
    moved.(dx := Add(moved.dx, delta.dx))
  }

  /**
    The composition "delta after t" as the surface and section code use it:
    the arithmetic of AugmentGTransformation plus the flags of delta.
  */
  function Composed(delta: Transformation, t: Transformation): (r: Transformation)
    ensures r.rotation == (t.rotation || delta.rotation)
    ensures r.displacement == (t.displacement || delta.displacement)
  {
    var moved :=
      if delta.rotation then t.(m := MatMul(delta.m, t.m), dx := MatVec(delta.m, t.dx))
      else t;
    moved.(dx := Add(moved.dx, delta.dx), rotation := t.rotation || delta.rotation,
           displacement := t.displacement || delta.displacement)
  }

  lemma MatMulIdentityRight(m: Mat3)
    ensures MatMul(m, Identity()) == m
  {
  }

  /** Augmenting by a rotation gives "old map, then r". */
  lemma RotatedMap(t: Transformation, r: Mat3, x: Vec3)
    requires WellFormed(t)
    ensures Map(Rotated(t, r), x) == MatVec(r, Map(t, x))
  {
    MatMulMatVec(r, t.m, x);
    MatVecAdd(r, MatVec(t.m, x), t.dx);
    if !t.rotation {
      MatVecIdentity(x);
    }
  }

  /** Augmenting an invertible record by an orthogonal matrix keeps it invertible. */
  lemma RotatedInvertible(t: Transformation, r: Mat3)
    requires WellFormed(t) && Invertible(t) && Orthogonal(r)
    ensures Invertible(Rotated(t, r))
  {
    if t.rotation {
      OrthogonalMatMul(r, t.m);
    } else {
      MatMulIdentityRight(r);
    }
  }

  /** The corrected composition is "t, then delta", and keeps records well formed. */
  lemma ComposedMap(delta: Transformation, t: Transformation, x: Vec3)
    requires WellFormed(t)
    ensures WellFormed(Composed(delta, t))
    ensures Map(Composed(delta, t), x) == Map(delta, Map(t, x))
  {
    if delta.rotation {
      MatMulMatVec(delta.m, t.m, x);
      MatVecAdd(delta.m, MatVec(t.m, x), t.dx);
      if !t.rotation {
        MatVecIdentity(x);
        MatVecAdd(delta.m, x, t.dx);
      }
    }
  }

  /** Composing invertible records gives an invertible record. */
  lemma ComposedInvertible(delta: Transformation, t: Transformation)
    requires WellFormed(t) && Invertible(t) && Invertible(delta)
    ensures Invertible(Composed(delta, t))
  {
    if delta.rotation {
      if t.rotation {
        OrthogonalMatMul(delta.m, t.m);
      } else {
        MatMulIdentityRight(delta.m);
      }
    }
  }

  /**
    The composition as written is "t, then delta" only for points delta's
    matrix leaves fixed, once delta rotates and t does not: the ROTATION
    flag never reaches the result, so the result ignores the matrix.
  */
  lemma ComposedAsWrittenMissesRotation(delta: Transformation, t: Transformation, x: Vec3)
    requires delta.rotation && !t.rotation
    ensures Map(ComposedAsWritten(delta, t), x) == Map(delta, Map(t, x)) <==> MatVec(delta.m, x) == x
  {
    MatVecAdd(delta.m, x, t.dx);
  }

  /** The quarter turn about z. */
  function QuarterTurn(): Mat3
  {
    Mat3(Vec3(0.0, -1.0, 0.0), Vec3(1.0, 0.0, 0.0), Vec3(0.0, 0.0, 1.0))
  }

  /** A quarter turn about z is a rotation that moves (1,0,0): the input that shows the difference. */
  lemma QuarterTurnMovesX()
    ensures Orthogonal(QuarterTurn())
    ensures MatVec(QuarterTurn(), Vec3(1.0, 0.0, 0.0)) == Vec3(0.0, 1.0, 0.0)
  {
    var q := QuarterTurn();
    assert Transpose(q) == Mat3(Vec3(0.0, 1.0, 0.0), Vec3(-1.0, 0.0, 0.0), Vec3(0.0, 0.0, 1.0));
  }

  /** Without a rotation UnApply undoes Apply outright; with one, when M is orthogonal. */
  lemma UnMapMap(t: Transformation, x: Vec3)
    requires Invertible(t)
    ensures UnMap(t, Map(t, x)) == x
  {
    if t.rotation {
      OrthogonalInverse(t.m, x);
    }
  }

  /*** Point buffers: X[3*nx+0..2] are the coordinates of point nx. ***/

  function PointAt(s: seq<real>, k: nat): Vec3
    requires 3 * k + 2 < |s|
  {
    Vec3(s[3 * k], s[3 * k + 1], s[3 * k + 2])
  }

  function Coord(v: Vec3, i: nat): real
    requires i < 3
  {
    if i == 0 then v.x else if i == 1 then v.y else v.z
  }

  /**
    The first nx points of s, each replaced by f of itself; the entries
    past the first 3*nx are kept.
  */
  function Pointwise(f: Vec3 -> Vec3, s: seq<real>, nx: nat): (r: seq<real>)
    requires 3 * nx <= |s|
    ensures |r| == |s|
    ensures forall k :: 0 <= k < nx ==> PointAt(r, k) == f(PointAt(s, k))
    ensures r[3 * nx..] == s[3 * nx..]
  {
    var r := seq(|s|, i requires 0 <= i < |s| =>
                 if i < 3 * nx then Coord(f(PointAt(s, i / 3)), i % 3) else s[i]);
    assert forall k :: 0 <= k < nx ==> PointAt(r, k) == f(PointAt(s, k)) by {
      forall k | 0 <= k < nx
        ensures PointAt(r, k) == f(PointAt(s, k))
      {
        assert (3 * k) / 3 == k && (3 * k + 1) / 3 == k && (3 * k + 2) / 3 == k;
      }
    }
    r
  }

  function MapPoints(t: Transformation, s: seq<real>, nx: nat): seq<real>
    requires 3 * nx <= |s|
  {
    Pointwise(x => Map(t, x), s, nx)
  }

  function UnMapPoints(t: Transformation, s: seq<real>, nx: nat): seq<real>
    requires 3 * nx <= |s|
  {
    Pointwise(x => UnMap(t, x), s, nx)
  }

  /** Un-applying after applying gives back every point of an invertible record. */
  lemma {:induction false} UnMapPointsMapPoints(t: Transformation, s: seq<real>, nx: nat)
    requires 3 * nx <= |s| && Invertible(t)
    ensures UnMapPoints(t, MapPoints(t, s, nx), nx) == s
  {
    var m := MapPoints(t, s, nx);
    var r := UnMapPoints(t, m, nx);
    forall k | 0 <= k < nx
      ensures PointAt(r, k) == PointAt(s, k)
    {
      assert PointAt(m, k) == Map(t, PointAt(s, k));
      assert PointAt(r, k) == UnMap(t, PointAt(m, k));
      UnMapMap(t, PointAt(s, k));
    }
    PointsEqual(r, s, nx);
  }

  /** Two buffers that agree point by point on their first nx points agree on that prefix. */
  lemma PointsEqual(a: seq<real>, b: seq<real>, nx: nat)
    requires 3 * nx <= |a| && 3 * nx <= |b|
    requires forall k :: 0 <= k < nx ==> PointAt(a, k) == PointAt(b, k)
    ensures a[..3 * nx] == b[..3 * nx]
    ensures |a| == |b| && a[3 * nx..] == b[3 * nx..] ==> a == b
  {
    forall i | 0 <= i < 3 * nx
      ensures a[i] == b[i]
    {
      var k := i / 3;
      assert PointAt(a, k) == PointAt(b, k);
      assert i == 3 * k || i == 3 * k + 1 || i == 3 * k + 2;
    }
    assert a[..3 * nx] == b[..3 * nx];
    assert a == a[..3 * nx] + a[3 * nx..];
    assert b == b[..3 * nx] + b[3 * nx..];
  }

  /**
    The in-place loop of ApplyGTransformation(GT, X, NX) for a record t:
    with the ROTATION flag XP = DX + M*X per point, otherwise X += DX.
  */
  method ApplyToPoints(t: Transformation, x: array<real>, nx: nat)
    requires 3 * nx <= x.Length
    modifies x
    ensures x[..] == MapPoints(t, old(x[..]), nx)
  {
    ghost var s := x[..];
    if t.rotation {
      RotateAndShiftPoints(t, x, nx);
    } else {
      ShiftPoints(t, x, nx);
    }
    PointsEqual(x[..], MapPoints(t, s, nx), nx);
  }

  /** The ROTATION branch of ApplyGTransformation: XP = DX + M*X for each of the first nx points. */
  method RotateAndShiftPoints(t: Transformation, x: array<real>, nx: nat)
    requires 3 * nx <= x.Length && t.rotation
    modifies x
    ensures forall j :: 0 <= j < nx ==> PointAt(x[..], j) == Map(t, PointAt(old(x[..]), j))
    ensures x[3 * nx..] == old(x[3 * nx..])
  {
    ghost var s := x[..];
    var k := 0;
    while k < nx
      invariant 0 <= k <= nx
      invariant forall j :: 0 <= j < k ==> PointAt(x[..], j) == Map(t, PointAt(s, j))
      invariant forall i :: 3 * k <= i < x.Length ==> x[i] == s[i]
    {
      var xp := Add(MatVec(t.m, Vec3(x[3 * k], x[3 * k + 1], x[3 * k + 2])), t.dx);
      x[3 * k] := xp.x;
      x[3 * k + 1] := xp.y;
      x[3 * k + 2] := xp.z;
      k := k + 1;
    }
  }

  /** The branch of ApplyGTransformation without ROTATION: X += DX for each of the first nx points. */
  method ShiftPoints(t: Transformation, x: array<real>, nx: nat)
    requires 3 * nx <= x.Length && !t.rotation
    modifies x
    ensures forall j :: 0 <= j < nx ==> PointAt(x[..], j) == Map(t, PointAt(old(x[..]), j))
    ensures x[3 * nx..] == old(x[3 * nx..])
  {
    ghost var s := x[..];
    var k := 0;
    while k < nx
      invariant 0 <= k <= nx
      invariant forall j :: 0 <= j < k ==> PointAt(x[..], j) == Map(t, PointAt(s, j))
      invariant forall i :: 3 * k <= i < x.Length ==> x[i] == s[i]
    {
      x[3 * k] := x[3 * k] + t.dx.x;
      x[3 * k + 1] := x[3 * k + 1] + t.dx.y;
      x[3 * k + 2] := x[3 * k + 2] + t.dx.z;
      k := k + 1;
    }
  }

  /**
    UnApplyGTransformation(GT, X, NX) for a record t: first subtract DX from
    every point, then, with the ROTATION flag, multiply every point by M^T.
  */
  method UnApplyToPoints(t: Transformation, x: array<real>, nx: nat)
    requires 3 * nx <= x.Length
    modifies x
    ensures x[..] == UnMapPoints(t, old(x[..]), nx)
  {
    ghost var s := x[..];
    SubtractFromPoints(t.dx, x, nx);
    if t.rotation {
      MultiplyPoints(Transpose(t.m), x, nx);
    }
    PointsEqual(x[..], UnMapPoints(t, s, nx), nx);
  }

  /** The first loop of UnApplyGTransformation: DX is subtracted from each of the first nx points. */
  method SubtractFromPoints(d: Vec3, x: array<real>, nx: nat)
    requires 3 * nx <= x.Length
    modifies x
    ensures forall j :: 0 <= j < nx ==> PointAt(x[..], j) == Sub(PointAt(old(x[..]), j), d)
    ensures x[3 * nx..] == old(x[3 * nx..])
  {
    ghost var s := x[..];
    var k := 0;
    while k < nx
      invariant 0 <= k <= nx
      invariant forall j :: 0 <= j < k ==> PointAt(x[..], j) == Sub(PointAt(s, j), d)
      invariant forall i :: 3 * k <= i < x.Length ==> x[i] == s[i]
    {
      x[3 * k] := x[3 * k] - d.x;
      x[3 * k + 1] := x[3 * k + 1] - d.y;
      x[3 * k + 2] := x[3 * k + 2] - d.z;
      k := k + 1;
    }
  }

  /** The second loop of UnApplyGTransformation: each of the first nx points is multiplied by m (there M^T). */
  method MultiplyPoints(m: Mat3, x: array<real>, nx: nat)
    requires 3 * nx <= x.Length
    modifies x
    ensures forall j :: 0 <= j < nx ==> PointAt(x[..], j) == MatVec(m, PointAt(old(x[..]), j))
    ensures x[3 * nx..] == old(x[3 * nx..])
  {
    ghost var s := x[..];
    var k := 0;
    while k < nx
      invariant 0 <= k <= nx
      invariant forall j :: 0 <= j < k ==> PointAt(x[..], j) == MatVec(m, PointAt(s, j))
      invariant forall j :: k <= j < nx ==> PointAt(x[..], j) == PointAt(s, j)
      invariant x[3 * nx..] == s[3 * nx..]
    {
      var xp := MatVec(m, Vec3(x[3 * k], x[3 * k + 1], x[3 * k + 2]));
      x[3 * k] := xp.x;
      x[3 * k + 1] := xp.y;
      x[3 * k + 2] := xp.z;
      k := k + 1;
    }
  }

  /**
    The record itself.  Fields are those of the C struct; the routines of
    GTransformation.cc that take a record pointer are its methods.
  */
  class GTransformation {
    var m: Mat3
    var dx: Vec3
    var displacement: bool
    var rotation: bool

    function Value(): Transformation
      reads this
    {
      Transformation(m, dx, displacement, rotation)
    }

    /** CreateOrAugmentGTransformation(0, DX): M = 1, DX = d, Type = DISPLACEMENT. */
    constructor FromDisplacement(d: Vec3)
      ensures Value() == Displacement(d)
    {
      dx := d;
      m := Identity();
      displacement, rotation := true, false;
    }

    /** CreateOrAugmentGTransformation(0, ZHat, Theta): M = the rotation matrix, DX = 0, Type = ROTATION. */
    constructor FromRotation(r: Mat3)
      ensures Value() == Rotation(r)
    {
      dx := Zero();
      m := r;
      displacement, rotation := false, true;
    }

    /** The identity record (the argument-less CreateGTransformation, completed). */
    constructor Create()
      ensures Value() == IdentityTransformation()
    {
      dx := Zero();
      m := Affine.Identity();
      displacement, rotation := true, false;
    }

    /** CreateOrAugmentGTransformation(GT, DX) with GT != 0. */
    method AugmentDisplacement(d: Vec3)
      modifies this
      ensures Value() == Displaced(old(Value()), d)
    {
      dx := Add(dx, d);
      displacement := true;
    }

    /** CreateOrAugmentGTransformation(GT, ZHat, Theta) with GT != 0, r the rotation matrix. */
    method AugmentRotation(r: Mat3)
      modifies this
      ensures Value() == Rotated(old(Value()), r)
    {
      dx := MatVec(r, dx);
      m := MatMul(r, m);
      rotation := true;
    }

    /** AugmentGTransformation(delta, this), as written: M, DX updated, Type untouched. */
    method Augment(delta: GTransformation)
      requires delta != this
      modifies this
      ensures Value() == ComposedAsWritten(delta.Value(), old(Value()))
    {
      if delta.rotation {
        m := MatMul(delta.m, m);
        dx := MatVec(delta.m, dx);
      }
      dx := Add(dx, delta.dx);
    }

    /** ResetGTransformation: DX = 0, M = 1, Type = DISPLACEMENT. */
    method Reset()
      modifies this
      ensures Value() == IdentityTransformation()
    {
      dx := Zero();
      m := Affine.Identity();
      displacement, rotation := true, false;
    }
  }

  /** The displacement overload of CreateOrAugmentGTransformation. */
  method CreateOrAugmentDisplacement(gt: GTransformation?, d: Vec3) returns (r: GTransformation)
    modifies gt
    ensures gt == null ==> fresh(r) && r.Value() == Displacement(d)
    ensures gt != null ==> r == gt && r.Value() == Displaced(old(gt.Value()), d)
  {
    if gt == null {
      r := new GTransformation.FromDisplacement(d);
    } else {
      gt.AugmentDisplacement(d);
      r := gt;
    }
  }

  /**
    The rotation overload of CreateOrAugmentGTransformation; rot stands for
    ConstructRotationMatrix (axis zHat, angle theta in degrees).
  */
  method CreateOrAugmentRotation(gt: GTransformation?, zHat: Vec3, theta: real, rot: (Vec3, real) -> Mat3)
    returns (r: GTransformation)
    modifies gt
    ensures gt == null ==> fresh(r) && r.Value() == Rotation(rot(zHat, theta))
    ensures gt != null ==> r == gt && r.Value() == Rotated(old(gt.Value()), rot(zHat, theta))
  {
    var mp := rot(zHat, theta);
    if gt == null {
      r := new GTransformation.FromRotation(mp);
    } else {
      gt.AugmentRotation(mp);
      r := gt;
    }
  }

  /** ApplyGTransformation(GT, X, NX), in place; a null record leaves X alone. */
  method ApplyGTransformation(gt: GTransformation?, x: array<real>, nx: nat)
    requires 3 * nx <= x.Length
    modifies x
    ensures gt == null ==> x[..] == old(x[..])
    ensures gt != null ==> x[..] == MapPoints(gt.Value(), old(x[..]), nx)
  {
    if gt == null {
      return;
    }
    ApplyToPoints(gt.Value(), x, nx);
  }

  /**
    ApplyGTransformation(GT, X, XP, NX), out of place: the first 3*NX
    entries of XP receive the transformed points (a copy of X for a null
    record); X and the rest of XP are left alone.
  */
  method ApplyGTransformationTo(gt: GTransformation?, x: array<real>, xp: array<real>, nx: nat)
    requires 3 * nx <= x.Length && 3 * nx <= xp.Length
    requires x != xp
    modifies xp
    ensures gt == null ==> xp[..3 * nx] == x[..3 * nx]
    ensures gt != null ==> xp[..3 * nx] == MapPoints(gt.Value(), x[..], nx)[..3 * nx]
    ensures xp[3 * nx..] == old(xp[3 * nx..])
  {
    if gt == null {
      ghost var old_xp := xp[..];
      var i := 0;
      while i < 3 * nx
        invariant 0 <= i <= 3 * nx
        invariant xp[..i] == x[..i]
        invariant xp[i..] == old_xp[i..]
      {
        xp[i] := x[i];
        i := i + 1;
      }
    } else {
      ApplyToPointsTo(gt.Value(), x, xp, nx);
    }
  }

  /** The loop of the out-of-place ApplyGTransformation for a record t. */
  method ApplyToPointsTo(t: Transformation, x: array<real>, xp: array<real>, nx: nat)
    requires 3 * nx <= x.Length && 3 * nx <= xp.Length
    requires x != xp
    modifies xp
    ensures xp[..3 * nx] == MapPoints(t, x[..], nx)[..3 * nx]
    ensures xp[3 * nx..] == old(xp[3 * nx..])
  {
    ghost var old_xp := xp[..];
    ghost var s := x[..];
    var k := 0;
    while k < nx
      invariant 0 <= k <= nx
      invariant x[..] == s
      invariant forall j :: 0 <= j < k ==> PointAt(xp[..], j) == Map(t, PointAt(s, j))
      invariant forall i :: 3 * k <= i < xp.Length ==> xp[i] == old_xp[i]
    {
      if t.rotation {
        var q := Add(MatVec(t.m, Vec3(x[3 * k], x[3 * k + 1], x[3 * k + 2])), t.dx);
        xp[3 * k] := q.x;
        xp[3 * k + 1] := q.y;
        xp[3 * k + 2] := q.z;
      } else {
        xp[3 * k] := x[3 * k] + t.dx.x;
        xp[3 * k + 1] := x[3 * k + 1] + t.dx.y;
        xp[3 * k + 2] := x[3 * k + 2] + t.dx.z;
      }
      k := k + 1;
    }
    PointsEqual(xp[..], MapPoints(t, s, nx), nx);
  }

  /** UnApplyGTransformation(GT, X, NX), in place (the C code needs a non-null record). */
  method UnApplyGTransformation(gt: GTransformation, x: array<real>, nx: nat)
    requires 3 * nx <= x.Length
    modifies x
    ensures x[..] == UnMapPoints(gt.Value(), old(x[..]), nx)
  {
    UnApplyToPoints(gt.Value(), x, nx);
  }

  /** ResetGTransformation leaves a record whose Apply changes nothing. */
  method ResetThenApply(gt: GTransformation, x: array<real>, nx: nat)
    requires 3 * nx <= x.Length
    modifies gt, x
    ensures x[..] == old(x[..])
  {
    gt.Reset();
    ApplyGTransformation(gt, x, nx);
    ghost var s := old(x[..]);
    assert forall k :: 0 <= k < nx ==> PointAt(x[..], k) == PointAt(s, k);
    PointsEqual(x[..], s, nx);
  }
}
