# scuff-em core: geometry transformations, geometry and surface bookkeeping, substrate Green functions

This project is a Dafny model of five pieces of the scuff-em boundary-element
electromagnetics code.

- **GTransformation** (`src/libs/libscuff/GTransformation.cc`). This is the
  affine map x ↦ M·x + DX that moves an object. It carries a type word
  that records whether it contains a displacement, a rotation or both.
  The model covers the routines that create, augment, compose, apply,
  un-apply and reset it, and the reader of a TRANSFORMATION …
  ENDTRANSFORMATION section.
  - Transformation values are a datatype.
  - The heap record is a class, and its augmenting routines update it in place.
  - Point buffers are `array<real>`, updated by loops.
- **RWGGeometry** (`scratch/libscuff20120805/RWGGeometry.cc`). This is the
  list of objects of a scattering geometry. The model covers:
  - the MEDIUM section reader;
  - the region list;
  - the in-place insertion sort that puts every object after the object
    containing it;
  - the basis-function and panel offsets;
  - the Mate[] table of identical objects, and AllPEC;
  - lookup by label;
  - Transform and UnTransform of a geometry by a list of transformation
    complexes;
  - the check that every label in those complexes exists;
  - SetEpsMu.
- **RWGSurface** (`scratch/libscuff20120805/RWGSurface.cc`). The model
  covers the line loop of the OBJECT/SURFACE section reader, the
  surface's bookkeeping (basis-function count, panel numbering, the
  stored GT), and Transform/UnTransform, which move the vertices and edge
  centroids and keep GT in step with them.
- **MOI** (`libs/libSubstrate/MOI.cc`). These are the method-of-images
  scalar Green functions of a layered substrate. The model covers:
  - the option record;
  - the layout of the (derivative, function) output slots;
  - the control flow of the real-space image series, which sums image
    pairs until three pairs in a row have converged;
  - the slot-by-slot fill of the Fourier-space integrand;
  - the interpolation-table callback, which relays V into the
    value/derivative order of the interpolator and extrapolates on the axis;
  - building and checking the interpolation table, and the test that
    decides whether a lookup may use it.
- **tInterpND** (`libs/libMDInterp/tInterpND.cc`). This is the test function
  Phi of the interpolation driver. It fills three functions and all their
  mixed first partials in D = 1, 2 or 3 dimensions.

Each routine is proved against a specification function of its inputs,
and lemmas prove properties of those specifications. The main ones:

- un-applying a transformation after applying it gives back the original
  points;
- composing transformations agrees with applying them one after the
  other;
- a parsed transformation section ends at its terminator and keeps one
  well-formed transformation per object;
- the nesting sort yields a permutation in which no object precedes its
  container, and each object records its innermost container;
- the slot encodings are bijections;
- the image series stops at the first run of three converged pairs.

Some things the source does are inputs to the model rather than part of
it. Each becomes a function parameter:

- the numeric parsing done by `sscanf`;
- the rotation-matrix constructor;
- the geometric containment test;
- the physics: exponentials, Bessel factors, the q-integral, and the modulus.

Places where the code does not compile, or lacks a return, are modelled
as evidently intended:

- `CreateGTransformation()` at GTransformation.cc:57-60 uses an undeclared
  `GT` and has no return. It is modelled as creating the identity.
- `CreateGTransformation(DX)` and `CreateGTransformation(ZHat, Theta)` at
  GTransformation.cc:53-54 and 108-109 drop the result of the call they
  wrap. They are modelled as returning it: the new displacement or
  rotation record.
- `CurrentGT=GTC->GT` at GTransformation.cc:374 assigns the transformation
  array to a single-transformation pointer. It is modelled as the
  transformation of the object just added, the last one in the complex.
- `strcasecmp(Which, "OBJECT")` at RWGSurface.cc:66 names an undeclared
  `Which`. It is modelled as the section's keyword, the `Keyword`
  argument of the constructor.
- `sscanf(Tokens[1],&PhysicalRegion)` at RWGSurface.cc:110 has no format
  string. It is modelled as reading an integer, the parameter `intOf`.
- `MaterialName = strdup(Tokens[1])` at RWGSurface.cc:123 assigns a
  pointer to `MaterialName`, declared at line 76 as a `char` array. It is
  modelled as recording the second token as the object's material.
- `reallocEC((NumRegions+1)*sizeof(...))` at RWGGeometry.cc:87 and 89
  passes only the new size, not the array to grow. It is modelled as
  growing `RegionLabels` and `RegionMPs` by one entry each, with the old
  entries kept.

One missing `return` is modelled as written. When a surface section has
no MESHFILE line, RWGSurface.cc:201-202 sets the error message and does
not return. The constructor goes on into `InitRWGSurface` with no file
name, which clears the message (line 226) and stops the program because
the file cannot be opened (lines 232-234). The model gives this outcome
its own error, `CouldNotOpenMeshFile`.

## Model

| member | source | states |
|---|---|---|
| GTransformation.Displacement | src/libs/libscuff/GTransformation.cc:28-41 | a new displacement is well formed and invertible, has only the displacement flag, and maps x to x + DX |
| GTransformation.Rotation | src/libs/libscuff/GTransformation.cc:72-83 | a new rotation has only the rotation flag, maps x to R·x, and is invertible when R is orthogonal |
| GTransformation.IdentityTransformation | src/libs/libscuff/GTransformation.cc:238-249 | the reset transformation maps and un-maps every point to itself |
| GTransformation.Displaced | src/libs/libscuff/GTransformation.cc:43-49 | augmenting by DX keeps M and the rotation flag, sets the displacement flag, preserves well-formedness and invertibility, and maps x to old(x) + DX |
| GTransformation.Rotated | src/libs/libscuff/GTransformation.cc:85-104 | augmenting by a rotation sets the rotation flag, keeps the displacement flag and is well formed |
| GTransformation.RotatedMap | src/libs/libscuff/GTransformation.cc:85-104 | the augmented rotation maps x to R applied after the old map (M := R·M, DX := R·DX) |
| GTransformation.RotatedInvertible | src/libs/libscuff/GTransformation.cc:85-104 | an orthogonal rotation keeps an invertible transformation invertible |
| GTransformation.ComposedAsWritten | src/libs/libscuff/GTransformation.cc:114-141 | as written, composing leaves the type word of GT unchanged |
| GTransformation.ComposedAsWrittenMissesRotation | src/libs/libscuff/GTransformation.cc:114-141 | as written, composing a rotation into a pure displacement agrees with "old map, then delta" exactly on the points the rotation fixes |
| GTransformation.QuarterTurnMovesX | src/libs/libscuff/GTransformation.cc:114-141 | a quarter turn is orthogonal and moves (1,0,0), so the as-written composition is wrong for it |
| GTransformation.Composed | src/libs/libscuff/GTransformation.cc:114-141 | the corrected composition carries the union of both type words |
| GTransformation.ComposedMap | src/libs/libscuff/GTransformation.cc:114-141 | the corrected composition is well formed and maps x to delta applied after the old map |
| GTransformation.ComposedInvertible | src/libs/libscuff/GTransformation.cc:114-141 | the composition of invertible transformations is invertible |
| GTransformation.UnMapMap | src/libs/libscuff/GTransformation.cc:214-236 | un-applying an invertible transformation undoes applying it, point by point |
| GTransformation.Pointwise | src/libs/libscuff/GTransformation.cc:147-173 | the buffer after a per-point map holds the image of each of the first nx points and leaves the rest untouched |
| GTransformation.UnMapPointsMapPoints | src/libs/libscuff/GTransformation.cc:214-236 | un-applying after applying restores the whole buffer |
| GTransformation.PointsEqual | src/libs/libscuff/GTransformation.cc:147-173 | two buffers agreeing on every point (and on the tail) are equal |
| GTransformation.ApplyToPoints | src/libs/libscuff/GTransformation.cc:147-173 | in-place apply: the buffer becomes MapPoints of the old buffer |
| GTransformation.RotateAndShiftPoints | src/libs/libscuff/GTransformation.cc:156-165 | the rotation branch maps each point x to M·x + DX and leaves the tail unchanged |
| GTransformation.ShiftPoints | src/libs/libscuff/GTransformation.cc:166-172 | the displacement-only branch maps each point x to x + DX and leaves the tail unchanged |
| GTransformation.ApplyGTransformation | src/libs/libscuff/GTransformation.cc:147-173 | a null GT leaves the points unchanged; otherwise they become MapPoints of the old ones |
| GTransformation.ApplyGTransformationTo | src/libs/libscuff/GTransformation.cc:181-206 | out-of-place apply: XP receives the copied or mapped points of X; X and the tail of XP are untouched |
| GTransformation.ApplyToPointsTo | src/libs/libscuff/GTransformation.cc:188-205 | the non-null branch writes the mapped points of X into XP |
| GTransformation.UnApplyToPoints | src/libs/libscuff/GTransformation.cc:214-236 | in-place un-apply: the buffer becomes UnMapPoints of the old buffer |
| GTransformation.SubtractFromPoints | src/libs/libscuff/GTransformation.cc:219-223 | each point loses DX; the tail is unchanged |
| GTransformation.MultiplyPoints | src/libs/libscuff/GTransformation.cc:225-235 | each point is multiplied by the given matrix (Mᵀ when un-applying); the tail is unchanged |
| GTransformation.UnApplyGTransformation | src/libs/libscuff/GTransformation.cc:214-236 | the points become UnMapPoints of the old points under the record's value |
| GTransformation.GTransformation.FromDisplacement | src/libs/libscuff/GTransformation.cc:28-41 | the new record holds Displacement(DX) |
| GTransformation.GTransformation.FromRotation | src/libs/libscuff/GTransformation.cc:72-83 | the new record holds Rotation(R) |
| GTransformation.GTransformation.Create | src/libs/libscuff/GTransformation.cc:57-60 | the new record holds the identity |
| GTransformation.GTransformation.AugmentDisplacement | src/libs/libscuff/GTransformation.cc:43-49 | the record becomes Displaced of its old value |
| GTransformation.GTransformation.AugmentRotation | src/libs/libscuff/GTransformation.cc:85-104 | the record becomes Rotated of its old value |
| GTransformation.GTransformation.Augment | src/libs/libscuff/GTransformation.cc:114-141 | the record becomes ComposedAsWritten(delta, old value), with the type word left as it was |
| GTransformation.GTransformation.Reset | src/libs/libscuff/GTransformation.cc:238-249 | the record becomes the identity |
| GTransformation.CreateOrAugmentDisplacement | src/libs/libscuff/GTransformation.cc:24-51 | null GT: a fresh record holding Displacement(DX); otherwise the same record, displaced |
| GTransformation.CreateOrAugmentRotation | src/libs/libscuff/GTransformation.cc:67-106 | null GT: a fresh record holding the rotation about ZHat by Theta; otherwise the same record, rotated |
| GTransformation.ResetThenApply | src/libs/libscuff/GTransformation.cc:238-249 | after a reset, applying the record leaves every point where it was |
| Affine.MatMulMatVec | src/libs/libscuff/GTransformation.cc:95-98 | (A·B)·v = A·(B·v), which makes M := R·M compose with the map |
| Affine.OrthogonalMatMul | src/libs/libscuff/GTransformation.cc:85-104 | a product of orthogonal matrices is orthogonal |
| Affine.OrthogonalInverse | src/libs/libscuff/GTransformation.cc:225-235 | for orthogonal M, Mᵀ·(M·v) = v, so the transpose undoes a rotation |
| TransformationSection.Run | src/libs/libscuff/GTransformation.cc:344-428 | the loop never reads past the end, and a parsed section consumes at least one line |
| TransformationSection.ParseTRANSFORMATIONSection | src/libs/libscuff/GTransformation.cc:324-429 | with either dispatch (AsWritten is the source's if chain, Corrected the fix of Findings row 1), the reader advances the line number by the lines read, and returns the complex or the error that Run gives |
| TransformationSection.KeywordsDistinct | src/libs/libscuff/GTransformation.cc:354-422 | an ENDTRANSFORMATION line matches no other keyword of the section |
| TransformationSection.LineConsistent | src/libs/libscuff/GTransformation.cc:354-422 | every accepted line keeps one well-formed transformation per label and keeps the tag |
| TransformationSection.DisplacedLineMeaning | src/libs/libscuff/GTransformation.cc:376-393 | DISPLACED fails without an object, with the wrong arity or on a bad number; otherwise only the last object's map gains + DX |
| TransformationSection.RotatedLineMeaning | src/libs/libscuff/GTransformation.cc:394-412 | ROTATED fails without an object or without "tt ABOUT xx yy zz"; otherwise only the last object's map is followed by the rotation |
| TransformationSection.UnknownLine | src/libs/libscuff/GTransformation.cc:421-422 | any other first token fails with "unknown token" naming it |
| TransformationSection.LineOutcome | src/libs/libscuff/GTransformation.cc:413-422 | a line finishes the section exactly when it is ENDTRANSFORMATION, and then leaves the complex as it is; a line never fails with end of file |
| TransformationSection.RunConsistent | src/libs/libscuff/GTransformation.cc:344-424 | a parsed section is consistent and carries its tag |
| TransformationSection.RunNoTerminatorBefore | src/libs/libscuff/GTransformation.cc:344-424 | no line before the last one read is ENDTRANSFORMATION |
| TransformationSection.RunParsedAtTerminator | src/libs/libscuff/GTransformation.cc:413-420 | a parsed section's last line read is ENDTRANSFORMATION |
| TransformationSection.RunEndOfFileReadsAll | src/libs/libscuff/GTransformation.cc:426-428 | "unexpected end of file" is reported only after every line was read |
| TransformationSection.AsWrittenNeverContinues | src/libs/libscuff/GTransformation.cc:354-375 | as written, no line continues a section that has no object yet |
| TransformationSection.AsWrittenParsesOnlyEmpty | src/libs/libscuff/GTransformation.cc:354-375 | as written, a section parses only when it names no object |
| TransformationSection.OneObjectSectionAsWritten | src/libs/libscuff/GTransformation.cc:354-375 | as written, "OBJECT Box / ENDTRANSFORMATION" fails with "unknown token OBJECT" on line 1 |
| TransformationSection.OneObjectSectionCorrected | src/libs/libscuff/GTransformation.cc:354-375 | corrected, the same section parses to one object Box with the identity transformation |
| Text.Exclusive | src/libs/libscuff/GTransformation.cc:354-422 | keywords that differ at a position, ignoring case, cannot both name a line |
| Text.KeywordNotSkippable | src/libs/libscuff/GTransformation.cc:347-350 | a line naming a keyword is neither blank nor a comment |
| Text.SameIgnoringCaseReflexive | scratch/libscuff20120805/RWGGeometry.cc:389-408 | every label compares equal to itself, ignoring case |
| Text.SameIgnoringCaseSymmetric | scratch/libscuff20120805/RWGGeometry.cc:389-408 | case-insensitive comparison is symmetric |
| MediumSection.Run | scratch/libscuff20120805/RWGGeometry.cc:47-80 | the loop never reads past the end, and a read section consumes at least one line |
| MediumSection.ReadMediumSection | scratch/libscuff20120805/RWGGeometry.cc:47-80 | the reader advances the line number by the lines read, and returns the material or the error that Run gives |
| MediumSection.LastMaterialFront | scratch/libscuff20120805/RWGGeometry.cc:61-66 | the material name is the one on the last well-formed MATERIAL line |
| MediumSection.RunMeaning | scratch/libscuff20120805/RWGGeometry.cc:47-80 | the section reads material m after n lines exactly when its lines up to the ENDMEDIUM on line n are well formed and m is the last MATERIAL name |
| Geometry.FindFrom | scratch/libscuff20120805/RWGGeometry.cc:395-404 | the result is -1 or the first object from no on whose label equals lbl ignoring case |
| Geometry.SameIgnoringCaseTransitive | scratch/libscuff20120805/RWGGeometry.cc:389-408 | case-insensitive comparison is transitive |
| Geometry.FindFromIgnoresCase | scratch/libscuff20120805/RWGGeometry.cc:389-408 | labels equal up to case find the same object |
| Geometry.RWGGeometry.GetObjectByLabel | scratch/libscuff20120805/RWGGeometry.cc:389-408 | no label: null and -1; a found label: that object and its index; otherwise null, with -1 for a medium name and -2 for anything else |
| Geometry.BlockOf | scratch/libscuff20120805/RWGGeometry.cc:302-308 | a global index falls in exactly one object's block, at the offset that sums to it |
| Geometry.SumPrefix | scratch/libscuff20120805/RWGGeometry.cc:302-308 | an object's offset plus its count never exceeds the total |
| Geometry.BlockOfOffset | scratch/libscuff20120805/RWGGeometry.cc:302-308 | the index offset[no] + k decodes back to object no and local index k |
| Geometry.ComputeOffsets | scratch/libscuff20120805/RWGGeometry.cc:302-308 | BFIndexOffset and PanelIndexOffset hold the running sums of the basis-function and panel counts |
| Geometry.MateFrom | scratch/libscuff20120805/RWGGeometry.cc:331-340 | the result is -1 or the first earlier object identical to object no |
| Geometry.MateClasses | scratch/libscuff20120805/RWGGeometry.cc:331-340 | two objects are identical exactly when they have the same representative, and a representative has no mate |
| Geometry.ComputeMate | scratch/libscuff20120805/RWGGeometry.cc:331-340 | Mate[no] is the first earlier identical object, or -1 |
| Geometry.ComputeAllPEC | scratch/libscuff20120805/RWGGeometry.cc:294-297 | AllPEC holds exactly when every object is a perfect conductor |
| Geometry.SeparatePermutation | scratch/libscuff20120805/RWGGeometry.cc:255-279 | reordering the objects keeps their buffers separate |
| Nesting.DistinctPermutation | scratch/libscuff20120805/RWGGeometry.cc:255-279 | reordering keeps the objects distinct |
| Geometry.Arrange | scratch/libscuff20120805/RWGGeometry.cc:255-340 | objects are permuted into nesting order, each recording its innermost container; AllPEC, the offsets and Mate are computed over that order |
| Geometry.RWGGeometry.constructor | scratch/libscuff20120805/RWGGeometry.cc:140-143 | regions start as EXTERIOR/VACUUM; the exterior material defaults to VACUUM; the objects are nesting-sorted, each recording its innermost container, with offsets, Mate and AllPEC over the sorted order |
| Geometry.RWGGeometry.AddRegion | scratch/libscuff20120805/RWGGeometry.cc:85-92 | the region label and material are appended, and nothing else changes |
| Geometry.AddressedToWellFormed | scratch/libscuff20120805/RWGGeometry.cc:424-435 | every transformation addressed to an object is well formed |
| Geometry.MapAll | scratch/libscuff20120805/RWGGeometry.cc:424-435 | moving a buffer through a list of transformations keeps its length |
| Geometry.AccumulateWellFormed | scratch/libscuff20120805/RWGGeometry.cc:424-435 | composing well-formed transformations into GT keeps it well formed |
| Geometry.AppendStep | scratch/libscuff20120805/RWGGeometry.cc:424-435 | one more transformation composes into GT and moves the points once more |
| Geometry.AccumulateTracks | scratch/libscuff20120805/RWGGeometry.cc:424-435 | after any sequence of Transforms, the points are the originals placed by the accumulated GT (GT::Transform taken as the corrected composition, Findings row 3) |
| Geometry.ObjectStep | scratch/libscuff20120805/RWGGeometry.cc:424-435 | one more transformation for an object marks it moved, composes into its GT and moves its points |
| Geometry.ProgressStep | scratch/libscuff20120805/RWGGeometry.cc:424-435 | entry n of a complex either names no object (nothing changes) or moves exactly the object it names |
| Geometry.AddressedToStep | scratch/libscuff20120805/RWGGeometry.cc:424-435 | the transformations addressed to an object grow by entry n exactly when it names the object |
| Geometry.ProgressStepNamed | scratch/libscuff20120805/RWGGeometry.cc:424-435 | entry n moves the object it names: flag set, GT composed, vertices and centroids mapped |
| Geometry.RWGGeometry.MoveObject | scratch/libscuff20120805/RWGGeometry.cc:429-434 | only the named object changes: moved flag, GT, vertex and centroid buffers |
| Geometry.RWGGeometry.TransformStep | scratch/libscuff20120805/RWGGeometry.cc:424-435 | one loop iteration keeps the progress invariant |
| Geometry.RWGGeometry.GTs | scratch/libscuff20120805/RWGGeometry.cc:415-437 | the GTs of all objects, in order |
| Geometry.RWGGeometry.VertexBuffers | scratch/libscuff20120805/RWGGeometry.cc:415-437 | the vertex buffers of all objects, in order |
| Geometry.RWGGeometry.CentroidBuffers | scratch/libscuff20120805/RWGGeometry.cc:415-437 | the edge-centroid buffers of all objects, in order |
| Geometry.RWGGeometry.ClearObjectMoved | scratch/libscuff20120805/RWGGeometry.cc:421 | no object is marked moved before the loop |
| Geometry.RWGGeometry.Transform | scratch/libscuff20120805/RWGGeometry.cc:415-437 | each object is marked moved exactly when some entry of the complex names it, and is moved by those entries in order (GT::Transform taken as the corrected composition, Findings row 3) |
| Geometry.RWGGeometry.UnTransform | scratch/libscuff20120805/RWGGeometry.cc:442-447 | every object with a GT is un-applied and reset; the others are unchanged |
| Geometry.UnknownFromMeaning | scratch/libscuff20120805/RWGGeometry.cc:457-468 | no label is reported exactly when every label names an object; a reported label names none, and every label before it names an object (it is the first unknown one) |
| Geometry.FirstUnknownMeaning | scratch/libscuff20120805/RWGGeometry.cc:457-468 | the same over the list of complexes: nothing is reported exactly when every label resolves; a reported label resolves to no object, while every label of an earlier complex and every earlier label of its own complex does |
| Geometry.RWGGeometry.CheckGTCList | scratch/libscuff20120805/RWGGeometry.cc:457-468 | no error exactly when every label of every complex names an object; otherwise the error names the first unknown label |
| Geometry.SetEpsMuTarget | scratch/libscuff20120805/RWGGeometry.cc:485-496 | no label or EXTERIOR targets the exterior medium, a matching label targets its object, and anything else is ignored |
| Geometry.RWGGeometry.SetEpsMu | scratch/libscuff20120805/RWGGeometry.cc:485-496 | exactly the targeted medium receives the value; regions, materials and AllPEC are unchanged |
| Nesting.InsertedAt | scratch/libscuff20120805/RWGGeometry.cc:272-278 | moving object no to slot noi shifts the objects between up by one and fixes the rest |
| Nesting.InsertedPermutation | scratch/libscuff20120805/RWGGeometry.cc:272-278 | the move is a permutation |
| Nesting.InsertedSorted | scratch/libscuff20120805/RWGGeometry.cc:255-279 | inserting after the last container keeps the prefix in nesting order |
| Nesting.AddInnermost | scratch/libscuff20120805/RWGGeometry.cc:272-276 | when an object and O both record their innermost containers, the re-parenting by O gives the object its innermost container with O added |
| Nesting.InnermostSamePool | scratch/libscuff20120805/RWGGeometry.cc:255-279 | the innermost container depends on which objects there are, not on their order |
| Nesting.LinksOf | scratch/libscuff20120805/RWGGeometry.cc:255-279 | the container links of the objects, in their order |
| Nesting.ScanFindsInnermost | scratch/libscuff20120805/RWGGeometry.cc:262-266 | the first container the downward scan meets is the object's innermost container among the objects so far, or none |
| Nesting.PassedNotContained | scratch/libscuff20120805/RWGGeometry.cc:259-270 | O contains none of the objects before its slot, so only the objects it moves past can be re-parented |
| Nesting.StepLinks | scratch/libscuff20120805/RWGGeometry.cc:259-278 | one step's links have one entry per object |
| Nesting.StepInnermost | scratch/libscuff20120805/RWGGeometry.cc:259-278 | after one step every object of the first no+1 records its innermost container among them |
| Nesting.StepRecordsInnermost | scratch/libscuff20120805/RWGGeometry.cc:259-278 | the same, for the array after the move, with the later objects still recording none |
| Nesting.InsertedPrefix | scratch/libscuff20120805/RWGGeometry.cc:272-278 | the move keeps the first no+1 objects, in another order |
| Nesting.LinksOfInserted | scratch/libscuff20120805/RWGGeometry.cc:272-278 | the links move with their objects |
| Nesting.PermutationInPool | scratch/libscuff20120805/RWGGeometry.cc:255-279 | a permutation draws on the same objects |
| Nesting.StepFacts | scratch/libscuff20120805/RWGGeometry.cc:259-278 | one step keeps the objects distinct and a permutation, orders the first no+1, and makes them record their innermost containers |
| Nesting.InsertNext | scratch/libscuff20120805/RWGGeometry.cc:259-278 | one iteration of the pass extends the sorted, innermost-recording prefix by one object |
| Nesting.PlaceAt | scratch/libscuff20120805/RWGGeometry.cc:272-278 | the shift and the store of O complete the iteration the scan began |
| Nesting.FindInsertionPoint | scratch/libscuff20120805/RWGGeometry.cc:259-270 | the insertion slot lies after the last earlier container (recorded as the object's container) and before any object it contains |
| Nesting.ShiftOne | scratch/libscuff20120805/RWGGeometry.cc:272-277 | one step of the shift copies slot nop-1 into slot nop, and the moved object records O when O contains it and it recorded O's container, its old container otherwise |
| Nesting.ShiftedNone | scratch/libscuff20120805/RWGGeometry.cc:272-277 | an empty shift changes nothing |
| Nesting.ShiftedStep | scratch/libscuff20120805/RWGGeometry.cc:272-277 | each shift step extends the shifted range by one slot |
| Nesting.ShiftedThenPut | scratch/libscuff20120805/RWGGeometry.cc:272-278 | shifting and then storing the object is the insertion |
| Nesting.ShiftUp | scratch/libscuff20120805/RWGGeometry.cc:272-277 | the shift loop moves slots noi..no-1 up by one and re-parents each object it moves; no other object's link changes |
| Nesting.ShiftAndInsert | scratch/libscuff20120805/RWGGeometry.cc:272-278 | the array becomes the insertion of object no at slot noi, and its links are the old links, with the objects moved past re-parented, moved the same way |
| Nesting.RecordsInnermostFirst | scratch/libscuff20120805/RWGGeometry.cc:257-258 | before the pass, with no container recorded, the first object alone is in order and records its innermost container (none) |
| Nesting.RecordsInnermostAll | scratch/libscuff20120805/RWGGeometry.cc:257-279 | once the pass has covered every object, the objects are a permutation of the original ones in nesting order, each recording its innermost container among all of them |
| Nesting.InnermostValid | scratch/libscuff20120805/RWGGeometry.cc:262-276 | an object recording its innermost container records one that contains it |
| Nesting.InsertAll | scratch/libscuff20120805/RWGGeometry.cc:257-279 | the loop over no = 1 .. NumObjects-1 ends with every object in nesting order, drawn from the original objects and recording its innermost container |
| Nesting.SortByNesting | scratch/libscuff20120805/RWGGeometry.cc:255-279 | the objects are permuted so that none precedes an object containing it, and each records as its container the innermost object containing it (none when no object does) |
| Surface.StoredAfter | scratch/libscuff20120805/RWGSurface.cc:404-407 | GT becomes delta when empty, otherwise the composition, which keeps well-formedness and the rotation flag (GT::Transform taken as the corrected composition, Findings row 3) |
| Surface.MapPointsComposed | scratch/libscuff20120805/RWGSurface.cc:378-408 | moving points twice is moving them once by the composition |
| Surface.TransformTracks | scratch/libscuff20120805/RWGSurface.cc:378-408 | after Transform the points are still the originals placed by the stored GT (GT::Transform taken as the corrected composition, Findings row 3) |
| Surface.StoredAfterInvertible | scratch/libscuff20120805/RWGSurface.cc:404-407 | with invertible transformations the stored GT stays invertible |
| Surface.UnTransformRestores | scratch/libscuff20120805/RWGSurface.cc:423-452 | UnTransform brings points placed by an invertible GT back to the originals |
| Surface.RWGSurface.constructor | scratch/libscuff20120805/RWGSurface.cc:223-291 | GT starts empty, panel np gets index np, and NumBFs is NumEdges for a perfect conductor and 2·NumEdges otherwise |
| Surface.NumberPanels | scratch/libscuff20120805/RWGSurface.cc:272-274 | each panel's index becomes its position |
| Surface.RWGSurface.Transform | scratch/libscuff20120805/RWGSurface.cc:378-408 | vertices and centroids are mapped by delta, and GT becomes StoredAfter(old GT, delta) (GT::Transform taken as the corrected composition, Findings row 3) |
| Surface.RWGSurface.UnTransform | scratch/libscuff20120805/RWGSurface.cc:423-452 | without a GT nothing changes; otherwise vertices and centroids are un-mapped by GT and GT is reset |
| SurfaceSection.Run | scratch/libscuff20120805/RWGSurface.cc:84-198 | the loop never reads past the end |
| SurfaceSection.ReadSurfaceSection | scratch/libscuff20120805/RWGSurface.cc:59-211 | with either dispatch (AsWritten is the source's if chain, Corrected the fix of Findings row 2), the reader advances the line number by the lines read, and returns the section state or the error that Read gives; a section without MESHFILE ends in CouldNotOpenMeshFile, the fatal exit of InitRWGSurface |
| SurfaceSection.ContextChecks | scratch/libscuff20120805/RWGSurface.cc:113-139 | MATERIAL is refused outside an OBJECT section, and REGIONS inside one |
| SurfaceSection.ArityChecks | scratch/libscuff20120805/RWGSurface.cc:98-179 | each keyword with the wrong number of arguments fails with its own message |
| SurfaceSection.TransformLineFolds | scratch/libscuff20120805/RWGSurface.cc:140-173 | a fully parsed DISPLACED/ROTATED line changes only OTGT, which becomes the line's map applied after the old OTGT (GT::Transform taken as the corrected composition, Findings row 3) |
| SurfaceSection.TransformLineJunk | scratch/libscuff20120805/RWGSurface.cc:169-172 | tokens left over after the transformation fail with "junk at end of line" |
| SurfaceSection.LineOutcome | scratch/libscuff20120805/RWGSurface.cc:191-194 | a line ends the section exactly when it is ENDOBJECT, with the state unchanged |
| SurfaceSection.RunNoEndObjectBefore | scratch/libscuff20120805/RWGSurface.cc:84-198 | no line before the last one read is ENDOBJECT |
| SurfaceSection.RunLeftAtEndObject | scratch/libscuff20120805/RWGSurface.cc:84-198 | a loop left before the end of the input was left at an ENDOBJECT line |
| SurfaceSection.AsWrittenKeepsMeshFile | scratch/libscuff20120805/RWGSurface.cc:98-111 | as written, no accepted line sets the mesh file |
| SurfaceSection.AsWrittenRunKeepsMeshFile | scratch/libscuff20120805/RWGSurface.cc:84-198 | as written, the loop never sets the mesh file |
| SurfaceSection.AsWrittenAlwaysFails | scratch/libscuff20120805/RWGSurface.cc:201-202 | as written, every section fails |
| SurfaceSection.MeshOnlySectionAsWritten | scratch/libscuff20120805/RWGSurface.cc:98-104 | as written, "MESHFILE Sphere.msh / ENDOBJECT" fails with "unknown keyword MESHFILE" on line 1 |
| SurfaceSection.MeshOnlySectionCorrected | scratch/libscuff20120805/RWGSurface.cc:98-104 | corrected, the same section is read with mesh file Sphere.msh |
| MOI.InitScalarGFOptions | libs/libSubstrate/MOI.cc:38-49 | the defaults: full GF set, subtraction on, singular terms off, interpolator on, no derivatives, MaxTerms 1000, RelTol 1e-6, AbsTol 1e-12 |
| MOI.InitIsDefault | libs/libSubstrate/MOI.cc:51-52 | DefaultSGFOptions is the record InitScalarGFOptions produces |
| MOI.NumSGFVDs | libs/libSubstrate/MOI.cc:124-127 | the slot count is between 2 and the size of V |
| MOI.CountSGFVDs | libs/libSubstrate/MOI.cc:124-127 | NumSGFVDs = NumSGFs · (dRho count) · (dz count), at most the size of V |
| MOI.SlotFacts | libs/libSubstrate/MOI.cc:82-85 | slot (dz, dRho, nSGF) is in range and decodes back to its three indices |
| MOI.SlotInverse | libs/libSubstrate/MOI.cc:82-85 | every slot decodes to in-range indices that encode back to it |
| MOI.SlotLayout | libs/libSubstrate/MOI.cc:82-85 | the slot encoding is a bijection between index triples and slots |
| MOI.ImageTermAt | libs/libSubstrate/MOI.cc:82-100 | image n adds its term to slot (dz, dRho, nSGF) when it writes that function, and zero otherwise |
| MOI.AddSGFTerm | libs/libSubstrate/MOI.cc:59-103 | every used slot gains the image's term, the rest of V is untouched, and the next factor is 0 at r = 0 and Eta·EtaFac otherwise |
| MOI.AddToBlock | libs/libSubstrate/MOI.cc:82-100 | one (dz, dRho) block gains the image's terms, and nothing else changes |
| MOI.PartialSums | libs/libSubstrate/MOI.cc:109-173 | the partial sums of the first count images, one per slot |
| MOI.PartialSumsFromSlots | libs/libSubstrate/MOI.cc:148-170 | slot-by-slot partial sums make up the PartialSums vector |
| MOI.ChecksPassPrefix | libs/libSubstrate/MOI.cc:157-163 | the convergence checks depend only on the components that are checked |
| MOI.ComponentMagnitudes | libs/libSubstrate/MOI.cc:157-163 | the magnitudes of the three checked components |
| MOI.StreakFromMeaning | libs/libSubstrate/MOI.cc:148-170 | the streak loop returns 0 exactly when no pair ends three converged pairs in a row; otherwise it returns 2k for the first such pair k |
| MOI.CorrectionMeaning | libs/libSubstrate/MOI.cc:109-173 | past the early returns, the result is 0 when no three pairs in a row converge before MaxTerms/2, and otherwise twice the first pair that completes such a run |
| MOI.CorrectionStopsByTriple | libs/libSubstrate/MOI.cc:148-170 | if pair k completes a converged run, the series stops by 2k |
| MOI.ClearSlots | libs/libSubstrate/MOI.cc:128 | the first n slots are cleared and the rest kept |
| MOI.VecPlusEquals | libs/libSubstrate/MOI.cc:155 | V += Vn over the first n slots, the rest kept |
| MOI.ConvergedFromBuffer | libs/libSubstrate/MOI.cc:157-163 | with each check reading its own reference, the checks on the pair buffer decide exactly the pair's convergence |
| MOI.AddPair | libs/libSubstrate/MOI.cc:151-155 | Vn holds pair k's terms and V advances from 2k to 2k+2 images |
| MOI.PairStep | libs/libSubstrate/MOI.cc:153-155 | adding pair k's term to the partial sum of 2k images gives that of 2k+2 |
| MOI.PairConverged | libs/libSubstrate/MOI.cc:157-163 | the check loop's verdict is ChecksPass on the pair's magnitudes |
| MOI.SeriesPass | libs/libSubstrate/MOI.cc:150-163 | one pass adds pair k and reports exactly whether it converged |
| MOI.SeriesLoop | libs/libSubstrate/MOI.cc:148-172 | the loop returns StreakFrom's code and leaves V holding the partial sums of the images it summed |
| MOI.StartSum | libs/libSubstrate/MOI.cc:128-132 | after clearing V and adding the n = 0 term (if retained), V holds the sum of the first image |
| MOI.AddAssociates | libs/libSubstrate/MOI.cc:151-155 | adding a pair's two terms to V one at a time equals adding their sum, accumulated in Vn from zero |
| MOI.AddSecondImage | libs/libSubstrate/MOI.cc:137 | the n = 1 image advances V to the sum of two images |
| MOI.GetSGFCorrection | libs/libSubstrate/MOI.cc:109-173 | corrected as in Findings rows 4 and 5 (every slot cleared, check p against RefVals[p]): the return value is Correction's code, and V holds the partial sums of the images summed |
| MOI.RefReadAsWritten | libs/libSubstrate/MOI.cc:159-161 | as written, check p reads RefVals at its SGF slot, which exists only when that slot is below 3 |
| MOI.RefReadAsWrittenWrong | libs/libSubstrate/MOI.cc:159-161 | the Phi check reads the dPhi/dRho reference, and the two derivative checks read past RefVals |
| MOI.ClearedEntriesAsWritten | libs/libSubstrate/MOI.cc:128 | as written, V is cleared over NumSGFs entries and Vn over NumSGFVDs/16 entries |
| MOI.ClearedTooFew | libs/libSubstrate/MOI.cc:152 | with a derivative requested V keeps stale entries, and with the defaults Vn is not cleared at all |
| MOI.VTwiddleLayout | libs/libSubstrate/MOI.cc:265-268 | slot (dz, dRho, nSGF) of the integrand is zFactor(dz, nSGF)·RhoFactor(dRho, nSGF) |
| MOI.GetVTwiddle | libs/libSubstrate/MOI.cc:179-269 | q = 0 clears the used slots; otherwise each used slot holds its product of factors; the rest is untouched |
| MOI.FillBlock | libs/libSubstrate/MOI.cc:265-268 | one (dz, dRho) block of the integrand is filled, and nothing else changes |
| SubstrateInterp.CountVDsMatches | libs/libSubstrate/MOI.cc:573-580 | the derivative flags passed to the evaluation ask for exactly NumVDs (1, 2 or 4) combinations |
| SubstrateInterp.CallArgumentsAsWritten | libs/libSubstrate/MOI.cc:573-576 | as written, the z and the flags can be read only when both vectors have two entries |
| SubstrateInterp.ZFixedOf | libs/libSubstrate/MOI.cc:670 | the stored zFixed is non-negative, is the modulus of ZMin or of ZMax, and is at most both moduli |
| SubstrateInterp.ZFixedNotTableZ | libs/libSubstrate/MOI.cc:670-736 | for a one-dimensional table with ZMin = ZMax < 0, zFixed is -ZMin, not the table's z, zSGFI = ZMin |
| SubstrateInterp.CallArgumentsAsWrittenWrong | libs/libSubstrate/MOI.cc:573-576 | for a one-dimensional table the as-written reads fall off their vectors; in two dimensions they agree with the corrected ones |
| SubstrateInterp.Extrapolated | libs/libSubstrate/MOI.cc:591 | the extrapolated value plus V2 is 2·V1 |
| SubstrateInterp.ExtrapolationExactOnLines | libs/libSubstrate/MOI.cc:581-594 | the extrapolation returns the value at 0 of anything linear along the ray |
| SubstrateInterp.FillsAt | libs/libSubstrate/MOI.cc:576 | the evaluation fills a whole V vector |
| SubstrateInterp.SGFValues | libs/libSubstrate/MOI.cc:571-594 | the values before the relayout form a whole V vector |
| SubstrateInterp.PhiLayout | libs/libSubstrate/MOI.cc:596-607 | the PhiVD index nPhi·NumVDs + nVD is in range, injective and onto |
| SubstrateInterp.PhiIndexInjective | libs/libSubstrate/MOI.cc:604-605 | distinct (function, derivative) pairs get distinct PhiVD entries |
| SubstrateInterp.PhiIndexBound | libs/libSubstrate/MOI.cc:604-605 | every PhiVD index is below 2·NumSGFs·NumVDs |
| SubstrateInterp.PhiIndexOnto | libs/libSubstrate/MOI.cc:604-605 | every PhiVD entry is written by some pair |
| SubstrateInterp.PhiIndexApart | libs/libSubstrate/MOI.cc:604-605 | the real and imaginary writes of different pairs never collide |
| SubstrateInterp.VIndexDecodes | libs/libSubstrate/MOI.cc:590 | V index nVD·NumSGFs + nSGF decodes back to nSGF and nVD |
| SubstrateInterp.VIndexEncodes | libs/libSubstrate/MOI.cc:590 | every V index is nVD·NumSGFs + nSGF for its own decoding |
| SubstrateInterp.DerivativeSlots | libs/libSubstrate/MOI.cc:586-593 | the on-axis loop touches exactly the derivative slots, NumSGFs up to NumSGFVDs |
| SubstrateInterp.ExtrapolateOnAxis | libs/libSubstrate/MOI.cc:586-593 | every derivative slot becomes −V2 + 2·V1, and the others are kept |
| SubstrateInterp.Relayout | libs/libSubstrate/MOI.cc:599-607 | every (nSGF, nVD) pair has its real and imaginary parts laid at PhiVD[(2nSGF)·NumVDs + nVD] and PhiVD[(2nSGF+1)·NumVDs + nVD]; the tail is untouched |
| SubstrateInterp.WritePair | libs/libSubstrate/MOI.cc:602-605 | one pair is laid out without disturbing any other pair already laid out |
| SubstrateInterp.PhiVDFunc | libs/libSubstrate/MOI.cc:564-608 | PhiVD holds, in interpolator order, the values and derivatives of the (on-axis extrapolated) V |
| SubstrateInterp.TableOptions | libs/libSubstrate/MOI.cc:672-678 | the table's options use the interpolator and the default MaxTerms, ask for d/dRho always and d/dz exactly in two dimensions, and keep the caller's flags |
| SubstrateInterp.LayeredSubstrate.InitScalarGFInterpolator | libs/libSubstrate/MOI.cc:646-739 | with the check as written (ZMin==ZMax) or corrected (Findings row 7): a trivial call or a table that check accepts changes nothing; a zero tolerance removes the table; otherwise a table of dimension 1 or 2 is built with its options, frequency and fixed z |
| SubstrateInterp.CheckAfterInit | libs/libSubstrate/MOI.cc:613-640 | the corrected check accepts the table that Init has just built for the same arguments |
| SubstrateInterp.CheckAsWrittenMissesOwnTable | libs/libSubstrate/MOI.cc:625 | as written, when ZMin and ZMax are EqualFloat but not equal, the check rejects the table Init just built |
| SubstrateInterp.GateAfterInit | libs/libSubstrate/MOI.cc:491-525 | after Init, a lookup uses the table exactly when the options match, no derivative is asked, and in one dimension z is the table's z |
| SubstrateInterp.GateRefusesDerivatives | libs/libSubstrate/MOI.cc:491-525 | a lookup that needs derivatives never uses the table |
| TInterpND.Pow2 | libs/libMDInterp/tInterpND.cc:35 | NVD = 2^D is at least 1 |
| TInterpND.SigmaVec | libs/libMDInterp/tInterpND.cc:42-51 | the derivative vector of slot nVD has a 1 exactly on the axes whose bit is set |
| TInterpND.BlockEntryOf | libs/libMDInterp/tInterpND.cc:49-50 | a slot's entry is its factor product times the exponential |
| TInterpND.XF | libs/libMDInterp/tInterpND.cc:66-71 | the padded point has three coordinates |
| TInterpND.BitOfZero | libs/libMDInterp/tInterpND.cc:42-51 | slot 0 has no derivative bits |
| TInterpND.FactorOfZero | libs/libMDInterp/tInterpND.cc:42-51 | the value slot has factor 1, so it holds the plain exponential |
| TInterpND.BitsBeyond | libs/libMDInterp/tInterpND.cc:42-51 | a slot below 2^D has no bit at or beyond D |
| TInterpND.ZeroExponentVanishes | libs/libMDInterp/tInterpND.cc:76-82 | a monomial differentiated along an axis where its power is 0 contributes 0 |
| TInterpND.ConstantBeyondDim | libs/libMDInterp/tInterpND.cc:66-71 | axes beyond D contribute a factor of 1 and the real axes keep their coordinate |
| TInterpND.SlotIndexBijective | libs/libMDInterp/tInterpND.cc:84-93 | slot f·NVD + sigma is in range and determines f and sigma |
| TInterpND.PhiTest.constructor | libs/libMDInterp/tInterpND.cc:54-63 | the coefficient table starts unfilled |
| TInterpND.PhiTest.InitCoefficients | libs/libMDInterp/tInterpND.cc:54-63 | on the first call C[n2][n1][n0] becomes draw 16·n2 + 4·n1 + n0; later calls keep C |
| TInterpND.PhiTest.Phi | libs/libMDInterp/tInterpND.cc:21-95 | blocks 0 and 1 hold the two exponentials times their derivative factors, block 2 holds the mixed partials of the polynomial, C is filled once, and the tail is untouched |
| TInterpND.PhiTest.PolynomialBlock | libs/libMDInterp/tInterpND.cc:64-93 | block 2 receives the mixed partials of the polynomial; nothing outside it changes |
| TInterpND.PhiTest.ExponentialBlocks | libs/libMDInterp/tInterpND.cc:28-51 | blocks 0 and 1 receive the exponentials times each slot's factors; nothing beyond them changes |
| TInterpND.FillExpSlot | libs/libMDInterp/tInterpND.cc:42-51 | one slot of each exponential block is written, nothing else |
| TInterpND.ExponentArguments | libs/libMDInterp/tInterpND.cc:28-33 | XBar = X − X0 and the two exponent sums |
| TInterpND.SlotFactors | libs/libMDInterp/tInterpND.cc:43-48 | the two derivative-factor products of a slot |
| TInterpND.AddPlane | libs/libMDInterp/tInterpND.cc:72-83 | one n2 plane adds its monomials' partials to each of the eight slots |
| TInterpND.AddRow | libs/libMDInterp/tInterpND.cc:74-83 | one n1 row adds its monomials' partials to each slot |
| TInterpND.AddMonomial | libs/libMDInterp/tInterpND.cc:76-82 | one monomial adds its term to each of the eight slots |
| TInterpND.IncrementIsPartial | libs/libMDInterp/tInterpND.cc:76-82 | slot k's increment is the monomial's partial along the axes of k |
| TInterpND.SlotIsPartial1 | libs/libMDInterp/tInterpND.cc:76 | slot 1 holds the ∂x0 partial |
| TInterpND.SlotIsPartial2 | libs/libMDInterp/tInterpND.cc:77 | slot 2 holds the ∂x1 partial |
| TInterpND.SlotIsPartial3 | libs/libMDInterp/tInterpND.cc:78 | slot 3 holds the ∂x0∂x1 partial |
| TInterpND.SlotIsPartial4 | libs/libMDInterp/tInterpND.cc:79 | slot 4 holds the ∂x2 partial |
| TInterpND.SlotIsPartial5 | libs/libMDInterp/tInterpND.cc:80 | slot 5 holds the ∂x0∂x2 partial |
| TInterpND.SlotIsPartial6 | libs/libMDInterp/tInterpND.cc:81 | slot 6 holds the ∂x1∂x2 partial |
| TInterpND.SlotIsPartial7 | libs/libMDInterp/tInterpND.cc:82 | slot 7 holds the ∂x0∂x1∂x2 partial |
| TInterpND.SlotBits | libs/libMDInterp/tInterpND.cc:76-82 | the bits of slots 0..7 name the axes x0, x1 and x2 |
| TInterpND.WriteBlock | libs/libMDInterp/tInterpND.cc:84-93 | the first 2^D partials go into block 2 and nothing else changes |

## Left out

- `ConstructRotationMatrix` is the parameter `rot`. Orthogonality of the rotation matrix is a precondition where invertibility is claimed.
- Number parsing (`sscanf`), `Tokenize`, `cevaluator_create`, `EqualFloat`, the geometric containment test and `MatProp` are parameters or inputs.
- The GTransformation constructor that reads a DISPLACED/ROTATED line in a surface section is the parameter `gtOf`.
- `ParseTAGLine` and `ReadTransFile` (GTransformation.cc:310-322, 435-488) read whole files around the modelled section reader. They are not part of this model.
- The top-level line loop of the RWGGeometry constructor (RWGGeometry.cc:161-250) and `ProcessObjectOrSurfaceSection` are not part of this model. The constructor receives the surfaces already read and the MEDIUM material.
- The region list starts as the single EXTERIOR/VACUUM region by direct assignment rather than by a call to `AddRegion`; the effect is the same.
- The mesh readers (`ReadGMSHFile`, `ReadComsolFile`), `InitEdgeList`, panel geometry (`InitRWGPanel`) and `AveragePanelArea` are not part of this model. The surface constructor receives the vertices, edge centroids, panels and edge count.
- Physics values are inputs: the image terms of `AddSGFTerm_MOI` (exponentials and distances), the z and Rho factors of `GetVTwiddle_MOI` (Bessel and hyperbolic functions), `qIntegrand`, `SommerfeldIntegrate`, the q-integration of `GetScalarGFs_MOI` (MOI.cc:365-486) and its single-point fallback. Only their control flow and slot layout are modelled.
- Arithmetic is on unbounded reals. Floating-point rounding in the RelTol/AbsTol comparisons and in `abs()` is not modelled.
- The interpolation table itself (`InterpND` construction, `Evaluate`, `PointInGrid`) is not part of this model. A table is seen only through its dimension, its function count and the box its grids span.
- `SubstrateInterp.SGFValues`: states only the length of the vector. Its content is fixed by its definition and stated through `SubstrateInterp.PhiVDFunc`.
- The `LOOP_OVER_IVECS` macro is modelled by the slot-to-derivative-vector map `SigmaVec`.
- The main program of tInterpND (the interpolation accuracy test, `srandom`, `randU`, printing) is not part of this model. The random coefficients are the parameter `draws`; `exp` and `pow` are parameters.
- `zFixed` of the callback data is set by InitScalarGFInterpolator (MOI.cc:670) and never read by `PhiVDFunc_ScalarGFs` as written. The corrected `SubstrateInterp.PhiVDFunc` (Findings row 6) reads it as z for a one-dimensional table. That z is min(|ZMin|, |ZMax|) (`SubstrateInterp.ZFixedOf`), not the table's own z, zSGFI = ZMin (MOI.cc:736). The two differ when ZMin < 0 (`SubstrateInterp.ZFixedNotTableZ`). The model follows the source's zFixed and does not decide which of the two was intended.
- `MOI.GetSGFCorrection`: models the corrected routine of Findings rows 4 and 5. As written, entries of V beyond NumSGFs keep what the caller left there, Vn is cleared over NumSGFVDs bytes only, and checks 1 and 2 read past the three-entry RefVals. That is undefined behaviour with no value to model, so the model does not promise what the routine as written returns.
- `SubstrateInterp.LayeredSubstrate.InitScalarGFInterpolator`: takes the check it calls as a parameter. With `asWritten` it is the source's ZMin==ZMax check, and the method then rebuilds a table that it has just built whenever ZMin and ZMax differ but compare equal (Findings row 7).
- `Surface.StoredAfter`: GTransformation::Transform, the class method that GT->Transform(DeltaGT) at RWGSurface.cc:407 calls, is not part of this model. It is taken to be the corrected composition of Findings row 3, with the type words ORed, not AugmentGTransformation as written.
- `Surface.RWGSurface.Transform`: stores StoredAfter, so it relies on the same reading of GTransformation::Transform.
- `Surface.TransformTracks`: the points track the stored GT only under that corrected composition. With AugmentGTransformation as written, a rotation composed into a pure displacement would be dropped from GT.
- `SurfaceSection.TransformLineFolds`: OTGT->Transform(OTGT2) at RWGSurface.cc:156 is taken as the corrected composition, for the same reason.
- `Geometry.AccumulateTracks`: the accumulated GT is built with the corrected composition, for the same reason.
- `Geometry.RWGGeometry.Transform`: moves each object through RWGSurface::Transform, so it relies on the same reading of GTransformation::Transform.
- `Nesting.SortByNesting`: the claim that each object records its innermost container assumes that no object records a container yet (the RWGSurface constructor sets none) and that two objects containing the same object are nested, as surfaces that do not cross are. The geometric test itself is a parameter.
- Memory management (`malloc`, `realloc`, `strdup`, `free`), `ErrExit`/`ErrMsg` text formatting and file I/O are not modelled. Errors are datatype values, one constructor per message.
- Concurrency is not modelled: the source's static coefficient table is a field of the `PhiTest` object.

## Findings

| source | as written | input that shows it | evidently intended | confidence | as-written member | corrected member |
|---|---|---|---|---|---|---|
| src/libs/libscuff/GTransformation.cc:354-376 | The OBJECT test is a standalone `if`. An accepted OBJECT line falls into the else-if chain that starts at DISPLACED and ends in "unknown token OBJECT". | the section `OBJECT Box` followed by `ENDTRANSFORMATION` | OBJECT heads the if/else-if chain, so the section yields one object with the identity transformation | not executed | TransformationSection.OneObjectSectionAsWritten | TransformationSection.OneObjectSectionCorrected |
| scratch/libscuff20120805/RWGSurface.cc:98-105 | The MESHFILE test is a standalone `if`. An accepted MESHFILE line falls into the chain that starts at PHYSICAL_REGION and ends in "unknown keyword". Every section then fails. | the section `MESHFILE Sphere.msh` followed by `ENDOBJECT` | MESHFILE heads the chain, so the section is read with that mesh file | not executed | SurfaceSection.MeshOnlySectionAsWritten | SurfaceSection.MeshOnlySectionCorrected |
| src/libs/libscuff/GTransformation.cc:114-141 | `AugmentGTransformation` never ORs the type of DeltaGT into the type of GT. A rotation composed into a pure displacement is then skipped when the transformation is applied. | GT = displacement by (0,0,0), DeltaGT = quarter turn about z, point (1,0,0) | the type word becomes the union of both, and the point goes to (0,1,0) | not executed | GTransformation.ComposedAsWrittenMissesRotation | GTransformation.ComposedMap |
| libs/libSubstrate/MOI.cc:159-161 | Check p compares against `RefVals[Index]`, where Index is the slot of the checked function (1, 3 or 4) and RefVals has three entries. | any call that reaches the pair loop with the full GF set | check p compares against `RefVals[p]` | not executed | MOI.RefReadAsWrittenWrong | MOI.ConvergedFromBuffer |
| libs/libSubstrate/MOI.cc:128-152 | V is cleared over NumSGFs entries and Vn over NumSGFVDs bytes, but both accumulate over NumSGFVDs entries. | NeedDerivatives = NEED_DRHO, so NumSGFVDs = 10 while 5 entries of V and none of Vn are cleared | both are cleared over NumSGFVDs entries | not executed | MOI.ClearedTooFew | MOI.StartSum |
| libs/libSubstrate/MOI.cc:573-576 | `dRhoZMax[1]` and `RhoZ[1]` are read even for a one-dimensional table, where both vectors have one entry. | a one-dimensional table: RhoZ = [Rho], dRhoZMax = [2] | no dz derivative and z = the table's fixed z when there is one axis, taken as zFixed (line 670), which is -ZMin, not ZMin, when ZMin < 0 | not executed | SubstrateInterp.CallArgumentsAsWrittenWrong | SubstrateInterp.CountVDsMatches |
| libs/libSubstrate/MOI.cc:625 | The check chooses one dimension by `ZMin==ZMax`, while the builder (line 664) chooses it by `EqualFloat(ZMin,ZMax)`. | ZMin and ZMax that differ by less than the EqualFloat tolerance | both use the same test, so the check accepts the table just built | not executed | SubstrateInterp.CheckAsWrittenMissesOwnTable | SubstrateInterp.CheckAfterInit |
