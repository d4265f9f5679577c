/**
  The reader of an OBJECT ... ENDOBJECT or SURFACE ... ENDSURFACE section:
  the line loop of the section-parsing RWGSurface constructor.

  The keyword that opened the section decides whether it is an object
  (compared without regard to case with "OBJECT").  The section reads the
  mesh file name, a physical region, a material or a pair of region
  labels, a one-time transformation (OTGT) folded from DISPLACED/ROTATED
  lines, and a surface conductivity.  Parameters stand for the routines
  the reader calls: gtOf for the GTransformation(Tokens, NumTokens, ...)
  constructor, intOf for the sscanf of PHYSICAL_REGION, sigmaOk for
  cevaluator_create succeeding on the rest of the line.

  Dispatch.AsWritten follows the code, where MESHFILE is tested by a
  standalone `if` so that an accepted MESHFILE line goes on into the
  chain that starts at PHYSICAL_REGION; Dispatch.Corrected puts MESHFILE
  at the head of that chain.
*/
module SurfaceSection {
  import opened Text
  import opened Affine
  import opened GTransformation

  datatype SurfaceError =
    | MeshFileNeedsOneArgument               // "MESHFILE keyword requires one argument"
    | PhysicalRegionNeedsOneArgument         // "PHYSICAL_REGION keyword requires one argument"
    | MaterialInSurfaceSection               // "MATERIAL keyword may not be used in SURFACE...ENDSURFACE sections"
    | MaterialNeedsOneArgument               // "MATERIAL keyword requires one argument"
    | RegionsInObjectSection                 // "REGIONS keyword may not be used in OBJECT...ENDOBJECT sections"
    | RegionsNeedsTwoArguments               // "REGIONS keyword requires two arguments"
    | BadTransformation(msg: string)         // the message of the GTransformation constructor
    | JunkAtEndOfLine                        // "junk at end of line"
    | NoSurfaceConductivity                  // "no argument specified for SURFACE_CONDUCTIVITY"
    | InvalidSurfaceConductivity             // "invalid SURFACE_CONDUCTIVITY specification"
    | UnknownKeyword(token: string, section: string) // "unknown keyword %s in %s section"
    /**
      A section without MESHFILE: the message "%s section must include a
      MESHFILE specification" is set but not returned, and the constructor
      goes on into InitRWGSurface with no file name, which clears the
      message and stops the program because the file cannot be opened.
    */
    | CouldNotOpenMeshFile

  /** What the GTransformation(Tokens, ...) constructor yields: a record and the tokens it used, or a message. */
  datatype GTParse = GTParsed(gt: Transformation, consumed: nat) | GTFailed(msg: string)

  /** What the section has recorded so far. */
  datatype SectionState = SectionState(
    meshFile: Option<string>,
    physicalRegion: int,
    materialName: string,
    regionLabels: seq<string>,
    otgt: Option<Transformation>,
    sigma: Option<seq<string>>)

  /** The section's context: its opening keyword and the surface's label. */
  datatype Context = Context(keyword: string, surfaceLabel: string)

  /** The parameters standing for the routines the reader calls. */
  datatype Parsers = Parsers(gtOf: seq<string> -> GTParse, intOf: string -> Option<int>, sigmaOk: seq<string> -> bool)

  datatype LineResult = Continue(st: SectionState) | End(st: SectionState) | Stop(err: SurfaceError)

  /** How the loop ended: at ENDOBJECT or end of file (loop left), or with an error. */
  datatype LoopOutcome = LoopLeft(st: SectionState, linesRead: nat) | LoopFailed(err: SurfaceError, linesRead: nat)

  datatype Dispatch = AsWritten | Corrected

  /** The state on entry: no mesh file, PhysicalRegion = -1, empty material name. */
  function Initial(): SectionState
  {
    SectionState(None, -1, "", [], None, None)
  }

  predicate IsObject(ctx: Context)
  {
    SameIgnoringCase(ctx.keyword, "OBJECT")
  }

  /** The one-time transformation after one more DISPLACED/ROTATED line: the first creates it, later ones compose into it. */
  function Fold(otgt: Option<Transformation>, t: Transformation): Transformation
  {
    if otgt.None? then t else Composed(t, otgt.value)
  }

  /** MESHFILE file: the standalone test at the head of the dispatch. */
  function MeshFileLine(st: SectionState, tokens: seq<string>): LineResult
  {
    if |tokens| != 2 then Stop(MeshFileNeedsOneArgument)
    else Continue(st.(meshFile := Some(tokens[1])))
  }

  /** DISPLACED ... / ROTATED ...: fold the transformation, then reject leftover tokens. */
  function TransformLine(st: SectionState, tokens: seq<string>, p: Parsers): LineResult
  {
    match p.gtOf(tokens)
    case GTFailed(msg) => Stop(BadTransformation(msg))
    case GTParsed(t, consumed) =>
      if consumed != |tokens| then Stop(JunkAtEndOfLine)
      else Continue(st.(otgt := Some(Fold(st.otgt, t))))
  }

  /** The if / else-if chain that starts at PHYSICAL_REGION. */
  function Chain(ctx: Context, st: SectionState, tokens: seq<string>, p: Parsers): LineResult
    requires |tokens| > 0
  {
    if Is(tokens, "PHYSICAL_REGION") then
      if |tokens| != 2 then Stop(PhysicalRegionNeedsOneArgument)
      else Continue(match p.intOf(tokens[1])
                    case Some(n) => st.(physicalRegion := n)
                    case None => st)
    else if Is(tokens, "MATERIAL") then
      if !IsObject(ctx) then Stop(MaterialInSurfaceSection)
      else if |tokens| != 2 then Stop(MaterialNeedsOneArgument)
      else Continue(st.(materialName := tokens[1], regionLabels := ["EXTERIOR", ctx.surfaceLabel]))
    else if Is(tokens, "REGIONS") then
      if IsObject(ctx) then Stop(RegionsInObjectSection)
      else if |tokens| != 3 then Stop(RegionsNeedsTwoArguments)
      else Continue(st.(regionLabels := [tokens[1], tokens[2]]))
    else if Is(tokens, "DISPLACED") || Is(tokens, "ROTATED") then
      TransformLine(st, tokens, p)
    else if Is(tokens, "SURFACE_CONDUCTIVITY") then
      if |tokens| < 2 then Stop(NoSurfaceConductivity)
      else if !p.sigmaOk(tokens[1..]) then Stop(InvalidSurfaceConductivity)
      else Continue(st.(sigma := Some(tokens[1..])))
    else if Is(tokens, "ENDOBJECT") then End(st)
    else Stop(UnknownKeyword(tokens[0], ctx.keyword))
  }

  /** One non-skippable line. */
  function Line(dispatch: Dispatch, ctx: Context, st: SectionState, tokens: seq<string>, p: Parsers): LineResult
    requires |tokens| > 0
  {
    if !Is(tokens, "MESHFILE") then Chain(ctx, st, tokens, p)
    else match MeshFileLine(st, tokens)
      case Continue(st') => if dispatch == AsWritten then Chain(ctx, st', tokens, p) else Continue(st')
      case r => r
  }

  /** The while loop from line i on. */
  function Run(dispatch: Dispatch, ctx: Context, lines: seq<seq<string>>, i: nat, st: SectionState,
               p: Parsers): (o: LoopOutcome)
    requires i <= |lines|
    ensures i <= o.linesRead <= |lines|
    decreases |lines| - i
  {
    if i == |lines| then LoopLeft(st, |lines|)
    else if Skippable(lines[i]) then Run(dispatch, ctx, lines, i + 1, st, p)
    else match Line(dispatch, ctx, st, lines[i], p)
      case Continue(st') => Run(dispatch, ctx, lines, i + 1, st', p)
      case End(st') => LoopLeft(st', i + 1)
      case Stop(e) => LoopFailed(e, i + 1)
  }

  /** The whole section: the loop, then the check that a MESHFILE was given. */
  function Read(dispatch: Dispatch, ctx: Context, lines: seq<seq<string>>, p: Parsers): LoopOutcome
  {
    match Run(dispatch, ctx, lines, 0, Initial(), p)
    case LoopLeft(st, n) => if st.meshFile.None? then LoopFailed(CouldNotOpenMeshFile, n) else LoopLeft(st, n)
    case failed => failed
  }

  /**
    The section-reading loop of RWGSurface(f, Label, LineNum, Keyword).
    lines are the rest of the file; newLineNum is *LineNum on return.
  */
  method ReadSurfaceSection(dispatch: Dispatch, ctx: Context, lines: seq<seq<string>>, lineNum: int, p: Parsers)
    returns (err: Option<SurfaceError>, st: SectionState, newLineNum: int)
    ensures var o := Read(dispatch, ctx, lines, p);
            newLineNum == lineNum + o.linesRead &&
            (o.LoopLeft? ==> err == None && st == o.st) &&
            (o.LoopFailed? ==> err == Some(o.err))
  {
    st := Initial();
    var i := 0;
    newLineNum := lineNum;
    var reachedTheEnd := false;
    while !reachedTheEnd && i < |lines|
      invariant 0 <= i <= |lines|
      invariant newLineNum == lineNum + i
      invariant !reachedTheEnd ==> Run(dispatch, ctx, lines, i, st, p) == Run(dispatch, ctx, lines, 0, Initial(), p)
      invariant reachedTheEnd ==> Run(dispatch, ctx, lines, 0, Initial(), p) == LoopLeft(st, i)
    {
      var tokens := lines[i];
      i := i + 1;
      newLineNum := newLineNum + 1;
      if Skippable(tokens) {
        continue;
      }
      match Line(dispatch, ctx, st, tokens, p) {
        case Continue(st') =>
          st := st';
        case End(st') =>
          st := st';
          reachedTheEnd := true;
        case Stop(e) =>
          return Some(e), st, newLineNum;
      }
    }
    if st.meshFile.None? {
      err := Some(CouldNotOpenMeshFile);
    } else {
      err := None;
    }
  }

  /*** Properties of one line ***/

  /**
    The context checks come before the arity checks: MATERIAL in a SURFACE
    section and REGIONS in an OBJECT section fail with their own messages
    whatever the rest of the line.
  */
  lemma ContextChecks(dispatch: Dispatch, ctx: Context, st: SectionState, tokens: seq<string>, p: Parsers)
    requires |tokens| > 0
    ensures Is(tokens, "MATERIAL") && !IsObject(ctx) ==>
              Line(dispatch, ctx, st, tokens, p) == Stop(MaterialInSurfaceSection)
    ensures Is(tokens, "REGIONS") && IsObject(ctx) ==>
              Line(dispatch, ctx, st, tokens, p) == Stop(RegionsInObjectSection)
  {
    Exclusive(tokens, "MESHFILE", "MATERIAL", 1);
  }

  /**
    The arity checks: MESHFILE, PHYSICAL_REGION and MATERIAL take one
    argument, REGIONS two, SURFACE_CONDUCTIVITY at least one.
  */
  lemma ArityChecks(dispatch: Dispatch, ctx: Context, st: SectionState, tokens: seq<string>, p: Parsers)
    requires |tokens| > 0
    ensures Is(tokens, "MESHFILE") && |tokens| != 2 ==>
              Line(dispatch, ctx, st, tokens, p) == Stop(MeshFileNeedsOneArgument)
    ensures Is(tokens, "PHYSICAL_REGION") && |tokens| != 2 ==>
              Line(dispatch, ctx, st, tokens, p) == Stop(PhysicalRegionNeedsOneArgument)
    ensures Is(tokens, "MATERIAL") && IsObject(ctx) && |tokens| != 2 ==>
              Line(dispatch, ctx, st, tokens, p) == Stop(MaterialNeedsOneArgument)
    ensures Is(tokens, "REGIONS") && !IsObject(ctx) && |tokens| != 3 ==>
              Line(dispatch, ctx, st, tokens, p) == Stop(RegionsNeedsTwoArguments)
    ensures Is(tokens, "SURFACE_CONDUCTIVITY") && |tokens| < 2 ==>
              Line(dispatch, ctx, st, tokens, p) == Stop(NoSurfaceConductivity)
  {
    Exclusive(tokens, "MESHFILE", "MATERIAL", 1);
    Exclusive(tokens, "REGIONS", "ROTATED", 1);
    if !Is(tokens, "MESHFILE") {
      assert Is(tokens, "SURFACE_CONDUCTIVITY") ==>
        !Is(tokens, "PHYSICAL_REGION") && !Is(tokens, "MATERIAL") && !Is(tokens, "REGIONS") &&
        !Is(tokens, "DISPLACED") && !Is(tokens, "ROTATED");
      assert Is(tokens, "REGIONS") ==> !Is(tokens, "PHYSICAL_REGION") && !Is(tokens, "MATERIAL");
    }
  }

  /**
    An accepted DISPLACED/ROTATED line folds into the one-time
    transformation: the first creates it, a later one composes onto it, so
    that it maps every point as the earlier lines did, then as the new one.
  */
  lemma TransformLineFolds(dispatch: Dispatch, ctx: Context, st: SectionState, tokens: seq<string>,
                           p: Parsers, x: Vec3)
    requires Is(tokens, "DISPLACED") || Is(tokens, "ROTATED")
    requires st.otgt.Some? ==> WellFormed(st.otgt.value)
    requires p.gtOf(tokens).GTParsed? && p.gtOf(tokens).consumed == |tokens|
    ensures var r := Line(dispatch, ctx, st, tokens, p);
            var t := p.gtOf(tokens).gt;
            r.Continue? && r.st.otgt.Some? && r.st == st.(otgt := r.st.otgt) &&
            Map(r.st.otgt.value, x) == (if st.otgt.None? then Map(t, x) else Map(t, Map(st.otgt.value, x)))
  {
    Exclusive(tokens, "REGIONS", "ROTATED", 1);
    assert !Is(tokens, "MESHFILE") && !Is(tokens, "PHYSICAL_REGION") && !Is(tokens, "MATERIAL");
    assert !Is(tokens, "REGIONS");
    if st.otgt.Some? {
      ComposedMap(p.gtOf(tokens).gt, st.otgt.value, x);
    }
  }

  /** A transformation line with tokens left over is "junk at end of line". */
  lemma TransformLineJunk(dispatch: Dispatch, ctx: Context, st: SectionState, tokens: seq<string>, p: Parsers)
    requires Is(tokens, "DISPLACED") || Is(tokens, "ROTATED")
    requires p.gtOf(tokens).GTParsed? && p.gtOf(tokens).consumed != |tokens|
    ensures Line(dispatch, ctx, st, tokens, p) == Stop(JunkAtEndOfLine)
  {
    Exclusive(tokens, "REGIONS", "ROTATED", 1);
    assert !Is(tokens, "MESHFILE") && !Is(tokens, "PHYSICAL_REGION") && !Is(tokens, "MATERIAL");
    assert !Is(tokens, "REGIONS");
  }

  /*** Properties of a whole section ***/

  /** One line leaves the loop exactly when it is ENDOBJECT, and then with the state unchanged. */
  lemma LineOutcome(dispatch: Dispatch, ctx: Context, st: SectionState, tokens: seq<string>, p: Parsers)
    requires |tokens| > 0
    ensures Line(dispatch, ctx, st, tokens, p).End? <==> Is(tokens, "ENDOBJECT")
    ensures Is(tokens, "ENDOBJECT") ==> Line(dispatch, ctx, st, tokens, p) == End(st)
  {
    if Is(tokens, "ENDOBJECT") {
      Exclusive(tokens, "DISPLACED", "ENDOBJECT", 0);
      assert !Is(tokens, "MESHFILE") && !Is(tokens, "PHYSICAL_REGION") && !Is(tokens, "MATERIAL");
      assert !Is(tokens, "REGIONS") && !Is(tokens, "DISPLACED") && !Is(tokens, "ROTATED");
      assert !Is(tokens, "SURFACE_CONDUCTIVITY");
    } else if Is(tokens, "MESHFILE") && |tokens| == 2 {
      assert Line(dispatch, ctx, st, tokens, p) ==
             if dispatch == AsWritten then Chain(ctx, st.(meshFile := Some(tokens[1])), tokens, p)
             else Continue(st.(meshFile := Some(tokens[1])));
    }
  }

  /** No line before the last one the loop reads is ENDOBJECT. */
  lemma {:induction false} RunNoEndObjectBefore(dispatch: Dispatch, ctx: Context, lines: seq<seq<string>>,
                                                i: nat, st: SectionState, p: Parsers)
    requires i <= |lines|
    ensures var o := Run(dispatch, ctx, lines, i, st, p);
            forall j :: i <= j < o.linesRead - 1 ==> !Is(lines[j], "ENDOBJECT")
    decreases |lines| - i
  {
    if i < |lines| {
      if Is(lines[i], "ENDOBJECT") {
        KeywordNotSkippable(lines[i], "ENDOBJECT");
        LineOutcome(dispatch, ctx, st, lines[i], p);
      } else if Skippable(lines[i]) {
        RunNoEndObjectBefore(dispatch, ctx, lines, i + 1, st, p);
      } else {
        match Line(dispatch, ctx, st, lines[i], p)
        case Continue(st') => RunNoEndObjectBefore(dispatch, ctx, lines, i + 1, st', p);
        case End(_) =>
        case Stop(_) =>
      }
    }
  }

  /** A loop left before the end of the file was left on an ENDOBJECT line. */
  lemma {:induction false} RunLeftAtEndObject(dispatch: Dispatch, ctx: Context, lines: seq<seq<string>>,
                                              i: nat, st: SectionState, p: Parsers)
    requires i <= |lines|
    ensures var o := Run(dispatch, ctx, lines, i, st, p);
            o.LoopLeft? && o.linesRead < |lines| ==> i < o.linesRead && Is(lines[o.linesRead - 1], "ENDOBJECT")
    decreases |lines| - i
  {
    if i < |lines| {
      if Is(lines[i], "ENDOBJECT") {
        KeywordNotSkippable(lines[i], "ENDOBJECT");
        LineOutcome(dispatch, ctx, st, lines[i], p);
        assert Run(dispatch, ctx, lines, i, st, p) == LoopLeft(st, i + 1);
      } else if Skippable(lines[i]) {
        RunLeftAtEndObject(dispatch, ctx, lines, i + 1, st, p);
        assert Run(dispatch, ctx, lines, i, st, p) == Run(dispatch, ctx, lines, i + 1, st, p);
      } else {
        LineOutcome(dispatch, ctx, st, lines[i], p);
        match Line(dispatch, ctx, st, lines[i], p)
        case Continue(st') =>
          RunLeftAtEndObject(dispatch, ctx, lines, i + 1, st', p);
          RunContinues(dispatch, ctx, lines, i, st, st', p);
        case End(_) =>
          // only ENDOBJECT ends the loop
          assert false;
        case Stop(e) =>
          assert Run(dispatch, ctx, lines, i, st, p) == LoopFailed(e, i + 1);
      }
    }
  }

  /** A line that lets the loop go on hands the rest of the lines its new state. */
  lemma RunContinues(dispatch: Dispatch, ctx: Context, lines: seq<seq<string>>, i: nat, st: SectionState,
                     st': SectionState, p: Parsers)
    requires i < |lines| && !Skippable(lines[i]) && Line(dispatch, ctx, st, lines[i], p) == Continue(st')
    ensures Run(dispatch, ctx, lines, i, st, p) == Run(dispatch, ctx, lines, i + 1, st', p)
  {
  }

  /** As written, no line that lets the loop go on records a mesh file. */
  lemma AsWrittenKeepsMeshFile(ctx: Context, st: SectionState, tokens: seq<string>, p: Parsers)
    requires |tokens| > 0
    ensures match Line(AsWritten, ctx, st, tokens, p)
      case Continue(st') => st'.meshFile == st.meshFile
      case End(st') => st'.meshFile == st.meshFile
      case Stop(_) => true
  {
    if Is(tokens, "MESHFILE") {
      Exclusive(tokens, "MESHFILE", "MATERIAL", 1);
      assert !Is(tokens, "PHYSICAL_REGION") && !Is(tokens, "MATERIAL") && !Is(tokens, "REGIONS");
      assert !Is(tokens, "DISPLACED") && !Is(tokens, "ROTATED") && !Is(tokens, "SURFACE_CONDUCTIVITY");
      assert !Is(tokens, "ENDOBJECT");
    }
  }

  lemma {:induction false} AsWrittenRunKeepsMeshFile(ctx: Context, lines: seq<seq<string>>, i: nat,
                                                     st: SectionState, p: Parsers)
    requires i <= |lines|
    ensures Run(AsWritten, ctx, lines, i, st, p).LoopLeft? ==>
              Run(AsWritten, ctx, lines, i, st, p).st.meshFile == st.meshFile
    decreases |lines| - i
  {
    if i < |lines| {
      if Skippable(lines[i]) {
        AsWrittenRunKeepsMeshFile(ctx, lines, i + 1, st, p);
      } else {
        AsWrittenKeepsMeshFile(ctx, st, lines[i], p);
        match Line(AsWritten, ctx, st, lines[i], p)
        case Continue(st') => AsWrittenRunKeepsMeshFile(ctx, lines, i + 1, st', p);
        case End(_) =>
        case Stop(_) =>
      }
    }
  }

  /** As written, every section fails: a MESHFILE line is an unknown keyword, and without one the section is rejected. */
  lemma AsWrittenAlwaysFails(ctx: Context, lines: seq<seq<string>>, p: Parsers)
    ensures Read(AsWritten, ctx, lines, p).LoopFailed?
  {
    AsWrittenRunKeepsMeshFile(ctx, lines, 0, Initial(), p);
  }

  /** The section "MESHFILE Sphere.msh / ENDOBJECT", which shows the difference. */
  function MeshOnlySection(): seq<seq<string>>
  {
    [["MESHFILE", "Sphere.msh"], ["ENDOBJECT"]]
  }

  lemma MeshOnlySectionAsWritten(ctx: Context, p: Parsers)
    ensures Read(AsWritten, ctx, MeshOnlySection(), p) == LoopFailed(UnknownKeyword("MESHFILE", ctx.keyword), 1)
  {
    var line := MeshOnlySection()[0];
    assert Is(line, "MESHFILE");
    Exclusive(line, "MESHFILE", "MATERIAL", 1);
    assert !Is(line, "PHYSICAL_REGION") && !Is(line, "MATERIAL") && !Is(line, "REGIONS");
    assert !Is(line, "DISPLACED") && !Is(line, "ROTATED") && !Is(line, "SURFACE_CONDUCTIVITY");
    assert !Is(line, "ENDOBJECT");
  }

  lemma MeshOnlySectionCorrected(ctx: Context, p: Parsers)
    ensures Read(Corrected, ctx, MeshOnlySection(), p) == LoopLeft(Initial().(meshFile := Some("Sphere.msh")), 2)
  {
    var lines := MeshOnlySection();
    assert Is(lines[0], "MESHFILE");
    assert !Skippable(lines[0]) && !Skippable(lines[1]);
    var st1 := Initial().(meshFile := Some("Sphere.msh"));
    assert Line(Corrected, ctx, Initial(), lines[0], p) == Continue(st1);
    assert Is(lines[1], "ENDOBJECT");
    Exclusive(lines[1], "DISPLACED", "ENDOBJECT", 0);
    assert !Is(lines[1], "MESHFILE") && !Is(lines[1], "PHYSICAL_REGION") && !Is(lines[1], "MATERIAL");
    assert !Is(lines[1], "REGIONS") && !Is(lines[1], "DISPLACED") && !Is(lines[1], "ROTATED");
    assert !Is(lines[1], "SURFACE_CONDUCTIVITY");
  }
}
