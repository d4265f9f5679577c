/**
  An RWGSurface as far as its bookkeeping goes: the basis-function count,
  the panel numbering, and the GT field that remembers the transformation
  applied since the surface was read, so that it can be undone.

  The mesh itself (read by ReadGMSHFile / ReadComsolFile, with edges found
  by InitEdgeList) is input to the constructor: the vertex buffer, the
  edge centroids (one point per edge, stored consecutively), the panels,
  the edge count and whether the material is a perfect conductor.
*/
module Surface {
  import opened Text
  import opened Affine
  import opened GTransformation

  class Panel {
    var index: int

    constructor ()
    {
      index := 0;
    }
  }

  /** The transformation GT holds after one more Transform(delta). */
  function StoredAfter(gt: Option<Transformation>, delta: Transformation): (r: Transformation)
    ensures gt.None? ==> r == delta
    ensures gt.Some? && WellFormed(gt.value) ==> WellFormed(r)
    ensures gt.Some? ==> r.rotation == (gt.value.rotation || delta.rotation)
  {
    if gt.None? then delta
    else Composed(delta, gt.value)
  }

  /** The points of a surface placed by its GT (none: where they were read). */
  function Placed(gt: Option<Transformation>, base: seq<real>, nx: nat): seq<real>
    requires 3 * nx <= |base|
  {
    if gt.None? then base else MapPoints(gt.value, base, nx)
  }

  /** Applying MapPoints twice is applying the composition once. */
  lemma {:induction false} MapPointsComposed(delta: Transformation, t: Transformation, s: seq<real>, nx: nat)
    requires 3 * nx <= |s| && WellFormed(t)
    ensures MapPoints(delta, MapPoints(t, s, nx), nx) == MapPoints(Composed(delta, t), s, nx)
  {
    var a := MapPoints(delta, MapPoints(t, s, nx), nx);
    var b := MapPoints(Composed(delta, t), s, nx);
    forall k | 0 <= k < nx
      ensures PointAt(a, k) == PointAt(b, k)
    {
      assert PointAt(MapPoints(t, s, nx), k) == Map(t, PointAt(s, k));
      ComposedMap(delta, t, PointAt(s, k));
    }
    PointsEqual(a, b, nx);
  }

  /**
    Transform keeps the stored GT in step with the points: if the points are
    the originals placed by GT, then after moving them by delta they are the
    originals placed by the new GT.
  */
  lemma TransformTracks(gt: Option<Transformation>, delta: Transformation, base: seq<real>, nx: nat)
    requires 3 * nx <= |base|
    requires gt.Some? ==> WellFormed(gt.value)
    ensures MapPoints(delta, Placed(gt, base, nx), nx) == Placed(Some(StoredAfter(gt, delta)), base, nx)
  {
    if gt.Some? {
      MapPointsComposed(delta, gt.value, base, nx);
    }
  }

  /** With invertible transformations the stored GT stays invertible and well formed. */
  lemma StoredAfterInvertible(gt: Option<Transformation>, delta: Transformation)
    requires gt.Some? ==> WellFormed(gt.value) && Invertible(gt.value)
    requires WellFormed(delta) && Invertible(delta)
    ensures WellFormed(StoredAfter(gt, delta)) && Invertible(StoredAfter(gt, delta))
  {
    if gt.Some? {
      ComposedInvertible(delta, gt.value);
    }
  }

  /** UnTransform brings the points placed by an invertible GT back to the originals. */
  lemma UnTransformRestores(t: Transformation, base: seq<real>, nx: nat)
    requires 3 * nx <= |base| && Invertible(t)
    ensures UnMapPoints(t, Placed(Some(t), base, nx), nx) == base
  {
    UnMapPointsMapPoints(t, base, nx);
  }

  class RWGSurface {
    const surfaceLabel: string
    const meshFileName: string
    /** The name given with the MATERIAL keyword (the MatProp's Name). */
    const materialName: string
    const isPEC: bool
    const numVertices: nat
    const numEdges: nat
    /** The number of basis functions the surface contributes to the BEM system. */
    const numBFs: nat
    /** 3*numVertices coordinates. */
    const vertices: array<real>
    /** The centroid of edge ne at entries 3*ne .. 3*ne+2. */
    const centroids: array<real>
    const panels: array<Panel>
    var gt: Option<Transformation>
    /** The object this one lies inside, as found by the nesting pass (none at first). */
    var containing: RWGSurface?

    /** Only constant fields are involved, so no transformation can break it. */
    predicate Valid()
    {
      3 * numVertices <= vertices.Length && 3 * numEdges <= centroids.Length && vertices != centroids
    }

    /**
      The bookkeeping of InitRWGSurface once the mesh is read: GT starts
      empty, each panel's Index is its position, and NumBFs is NumEdges for
      a perfect conductor (one current per edge) and 2*NumEdges otherwise
      (electric and magnetic currents).
    */
    constructor (surfaceLabel: string, meshFileName: string, materialName: string, isPEC: bool,
                 vertices: array<real>, numVertices: nat,
                 centroids: array<real>, numEdges: nat, panels: array<Panel>)
      requires 3 * numVertices <= vertices.Length && 3 * numEdges <= centroids.Length
      requires vertices != centroids
      requires forall i, j :: 0 <= i < j < panels.Length ==> panels[i] != panels[j]
      modifies set np | 0 <= np < panels.Length :: panels[np]
      ensures Valid() && gt.None? && containing == null
      ensures this.surfaceLabel == surfaceLabel && this.meshFileName == meshFileName
      ensures this.materialName == materialName && this.isPEC == isPEC
      ensures this.vertices == vertices && this.numVertices == numVertices
      ensures this.centroids == centroids && this.numEdges == numEdges && this.panels == panels
      ensures numBFs == if isPEC then numEdges else 2 * numEdges
      ensures forall np :: 0 <= np < panels.Length ==> panels[np].index == np
    {
      this.surfaceLabel := surfaceLabel;
      this.meshFileName := meshFileName;
      this.materialName := materialName;
      this.isPEC := isPEC;
      this.vertices := vertices;
      this.numVertices := numVertices;
      this.centroids := centroids;
      this.numEdges := numEdges;
      this.panels := panels;
      this.numBFs := if isPEC then numEdges else 2 * numEdges;
      this.gt := None;
      this.containing := null;
      new;
      NumberPanels(panels);
    }

    /**
      Transform(DeltaGT): move the vertices and edge centroids by delta, then
      store a copy of delta in GT, or compose delta into the GT already there.
    */
    method Transform(delta: Transformation)
      requires Valid()
      modifies this, vertices, centroids
      ensures Valid()
      ensures vertices[..] == MapPoints(delta, old(vertices[..]), numVertices)
      ensures centroids[..] == MapPoints(delta, old(centroids[..]), numEdges)
      ensures gt == Some(StoredAfter(old(gt), delta)) && containing == old(containing)
    {
      ApplyToPoints(delta, vertices, numVertices);
      ApplyToPoints(delta, centroids, numEdges);
      if gt.None? {
        gt := Some(delta);
      } else {
        gt := Some(Composed(delta, gt.value));
      }
    }

    /**
      UnTransform: nothing without a GT; otherwise un-apply GT to the
      vertices and edge centroids and reset GT to the identity.
    */
    method UnTransform()
      requires Valid()
      modifies this, vertices, centroids
      ensures Valid() && containing == old(containing)
      ensures old(gt).None? ==>
                gt == old(gt) && vertices[..] == old(vertices[..]) && centroids[..] == old(centroids[..])
      ensures old(gt).Some? ==>
                vertices[..] == UnMapPoints(old(gt).value, old(vertices[..]), numVertices) &&
                centroids[..] == UnMapPoints(old(gt).value, old(centroids[..]), numEdges) &&
                gt == Some(IdentityTransformation())
    {
      if gt.None? {
        return;
      }
      UnApplyToPoints(gt.value, vertices, numVertices);
      UnApplyToPoints(gt.value, centroids, numEdges);
      gt := Some(IdentityTransformation());
    }
  }

  /** Number the panels: each panel's index becomes its position in the array. */
  method NumberPanels(panels: array<Panel>)
    requires forall i, j :: 0 <= i < j < panels.Length ==> panels[i] != panels[j]
    modifies set np | 0 <= np < panels.Length :: panels[np]
    ensures forall np :: 0 <= np < panels.Length ==> panels[np].index == np
  {
    var np := 0;
    while np < panels.Length
      invariant 0 <= np <= panels.Length
      invariant forall i :: 0 <= i < np ==> panels[i].index == i
    {
      panels[np].index := np;
      np := np + 1;
    }
  }
}
