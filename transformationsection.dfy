/**
  The reader of a TRANSFORMATION ... ENDTRANSFORMATION section of a
  transformation file.  A section lists objects (OBJECT label) and, after
  each, the displacements and rotations that move it; the result is a
  GTComplex: a tag plus one label and one transformation per object.

  The per-line dispatch is a pure function of the complex read so far and
  the tokens of the line; the reading loop is a method.  Two dispatchers
  are given: Dispatch.AsWritten, where the OBJECT test is a standalone
  `if` whose accepted lines fall into the else-chain that follows, and
  Dispatch.Corrected, where it heads the chain.  sscanf("%le") is the
  parameter num; ConstructRotationMatrix is the parameter rot.
*/
module TransformationSection {
  import opened Text
  import opened Affine
  import opened GTransformation

  /** Tag, labels of the objects affected, and one transformation per object. */
  datatype GTComplex = GTComplex(tag: string, objectLabels: seq<string>, gts: seq<Transformation>)

  datatype SectionError =
    | ObjectNeedsOneArgument      // "OBJECT keyword requires one argument"
    | NoObjectForDisplacement     // "no OBJECT specified for displacement"
    | NoObjectForRotation         // "no OBJECT specified for rotation"
    | SyntaxError                 // "syntax error"
    | InvalidValue                // "invalid value"
    | UnknownToken(token: string) // "unknown token %s"
    | UnexpectedEndOfFile         // "unexpected end of file"

  /** What one line does: keep reading with a new complex, finish, or fail. */
  datatype LineResult = Continue(gtc: GTComplex) | Finish(gtc: GTComplex) | Stop(err: SectionError)

  /** The outcome of a section and the number of lines it read (every line read bumps *pLineNum). */
  datatype Outcome = Parsed(gtc: GTComplex, linesRead: nat) | Failed(err: SectionError, linesRead: nat)

  datatype Dispatch = AsWritten | Corrected

  function Empty(tag: string): GTComplex
  {
    GTComplex(tag, [], [])
  }

  /** One label per transformation, every transformation well formed. */
  predicate Consistent(g: GTComplex)
  {
    |g.objectLabels| == |g.gts| && forall i :: 0 <= i < |g.gts| ==> WellFormed(g.gts[i])
  }

  function ParseVec(num: string -> Option<real>, a: string, b: string, c: string): Option<Vec3>
  {
    match (num(a), num(b), num(c))
    case (Some(x), Some(y), Some(z)) => Some(Vec3(x, y, z))
    case _ => None
  }

  /** The GTComplex with the transformation of its last object replaced by t. */
  function WithLast(g: GTComplex, t: Transformation): GTComplex
    requires |g.gts| > 0
  {
    g.(gts := g.gts[|g.gts| - 1 := t])
  }

  /** OBJECT label: append the label and an identity transformation. */
  function ObjectLine(g: GTComplex, tokens: seq<string>): LineResult
  {
    if |tokens| != 2 then Stop(ObjectNeedsOneArgument)
    else Continue(g.(objectLabels := g.objectLabels + [tokens[1]],
                     gts := g.gts + [IdentityTransformation()]))
  }

  /** DISPLACED xx yy zz: augment the current (last) object's transformation. */
  function DisplacedLine(g: GTComplex, tokens: seq<string>, num: string -> Option<real>): LineResult
  {
    if |g.gts| == 0 then Stop(NoObjectForDisplacement)
    else if |tokens| != 4 then Stop(SyntaxError)
    else match ParseVec(num, tokens[1], tokens[2], tokens[3])
      case None => Stop(InvalidValue)
      case Some(d) => Continue(WithLast(g, Displaced(g.gts[|g.gts| - 1], d)))
  }

  /** ROTATED tt ABOUT xx yy zz: augment the current (last) object's transformation. */
  function RotatedLine(g: GTComplex, tokens: seq<string>, num: string -> Option<real>,
                       rot: (Vec3, real) -> Mat3): LineResult
  {
    if |g.gts| == 0 then Stop(NoObjectForRotation)
    else if |tokens| != 6 || !SameIgnoringCase(tokens[2], "ABOUT") then Stop(SyntaxError)
    else match (num(tokens[1]), ParseVec(num, tokens[3], tokens[4], tokens[5]))
      case (Some(theta), Some(zHat)) => Continue(WithLast(g, Rotated(g.gts[|g.gts| - 1], rot(zHat, theta))))
      case _ => Stop(InvalidValue)
  }

  /** The if / else-if chain that starts at DISPLACED. */
  function Chain(g: GTComplex, tokens: seq<string>, num: string -> Option<real>,
                 rot: (Vec3, real) -> Mat3): LineResult
    requires |tokens| > 0
  {
    if Is(tokens, "DISPLACED") || Is(tokens, "DISP") then DisplacedLine(g, tokens, num)
    else if Is(tokens, "ROTATED") || Is(tokens, "ROT") then RotatedLine(g, tokens, num, rot)
    else if Is(tokens, "ENDTRANSFORMATION") then Finish(g)
    else Stop(UnknownToken(tokens[0]))
  }

  /** One non-skippable line. */
  function Line(dispatch: Dispatch, g: GTComplex, tokens: seq<string>, num: string -> Option<real>,
                rot: (Vec3, real) -> Mat3): LineResult
    requires |tokens| > 0
  {
    if !Is(tokens, "OBJECT") then Chain(g, tokens, num, rot)
    else match ObjectLine(g, tokens)
      case Continue(g') => if dispatch == AsWritten then Chain(g', tokens, num, rot) else Continue(g')
      case r => r
  }

  /** The reading loop from line i on, with the complex g read so far. */
  function Run(dispatch: Dispatch, lines: seq<seq<string>>, i: nat, g: GTComplex,
               num: string -> Option<real>, rot: (Vec3, real) -> Mat3): (o: Outcome)
    requires i <= |lines|
    ensures i <= o.linesRead <= |lines|
    ensures o.Parsed? ==> i < o.linesRead
    decreases |lines| - i
  {
    if i == |lines| then Failed(UnexpectedEndOfFile, |lines|)
    else if Skippable(lines[i]) then Run(dispatch, lines, i + 1, g, num, rot)
    else match Line(dispatch, g, lines[i], num, rot)
      case Continue(g') => Run(dispatch, lines, i + 1, g', num, rot)
      case Finish(g') => Parsed(g', i + 1)
      case Stop(e) => Failed(e, i + 1)
  }

  /**
    ParseTRANSFORMATIONSection: read the section that follows a
    TRANSFORMATION line.  lines are the rest of the file; lineNum is
    *pLineNum on entry and newLineNum its value on return.
  */
  method ParseTRANSFORMATIONSection(dispatch: Dispatch, tag: string, lines: seq<seq<string>>, lineNum: int,
                                    num: string -> Option<real>, rot: (Vec3, real) -> Mat3)
    returns (err: Option<SectionError>, gtc: Option<GTComplex>, newLineNum: int)
    ensures var o := Run(dispatch, lines, 0, Empty(tag), num, rot);
            newLineNum == lineNum + o.linesRead &&
            (o.Parsed? ==> err == None && gtc == Some(o.gtc)) &&
            (o.Failed? ==> err == Some(o.err) && gtc == None)
  {
    var g := Empty(tag);
    var i := 0;
    newLineNum := lineNum;
    while i < |lines|
      invariant 0 <= i <= |lines|
      invariant newLineNum == lineNum + i
      invariant Run(dispatch, lines, i, g, num, rot) == Run(dispatch, lines, 0, Empty(tag), num, rot)
    {
      var tokens := lines[i];
      i := i + 1;
      newLineNum := newLineNum + 1;
      if Skippable(tokens) {
        continue;
      }
      var r := Line(dispatch, g, tokens, num, rot);
      match r {
        case Continue(g') =>
          g := g';
        case Finish(g') =>
          return None, Some(g'), newLineNum;
        case Stop(e) =>
          return Some(e), None, newLineNum;
      }
    }
    return Some(UnexpectedEndOfFile), None, newLineNum;
  }

  /*** Properties of one line ***/

  /** The terminator keyword cannot be mistaken for any other keyword of the section. */
  lemma KeywordsDistinct(tokens: seq<string>)
    requires Is(tokens, "ENDTRANSFORMATION")
    ensures !Is(tokens, "OBJECT") && !Is(tokens, "DISPLACED") && !Is(tokens, "DISP")
    ensures !Is(tokens, "ROTATED") && !Is(tokens, "ROT")
  {
  }

  /** Each line keeps a consistent complex consistent. */
  lemma LineConsistent(dispatch: Dispatch, g: GTComplex, tokens: seq<string>,
                       num: string -> Option<real>, rot: (Vec3, real) -> Mat3)
    requires |tokens| > 0 && Consistent(g)
    ensures match Line(dispatch, g, tokens, num, rot)
      case Continue(g') => Consistent(g') && g'.tag == g.tag
      case Finish(g') => g' == g
      case Stop(_) => true
  {
  }

  /**
    DISPLACED on a complex with a current object: it fails exactly on a
    wrong token count or an unreadable number; otherwise the current
    object's map becomes "old map, then add d" and nothing else changes.
  */
  lemma DisplacedLineMeaning(dispatch: Dispatch, g: GTComplex, tokens: seq<string>,
                             num: string -> Option<real>, rot: (Vec3, real) -> Mat3, x: Vec3)
    requires Is(tokens, "DISPLACED") || Is(tokens, "DISP")
    ensures |g.gts| == 0 ==> Line(dispatch, g, tokens, num, rot) == Stop(NoObjectForDisplacement)
    ensures |g.gts| > 0 && |tokens| != 4 ==> Line(dispatch, g, tokens, num, rot) == Stop(SyntaxError)
    ensures |g.gts| > 0 && |tokens| == 4 && ParseVec(num, tokens[1], tokens[2], tokens[3]).None? ==>
              Line(dispatch, g, tokens, num, rot) == Stop(InvalidValue)
    ensures |g.gts| > 0 && |tokens| == 4 && ParseVec(num, tokens[1], tokens[2], tokens[3]).Some? ==>
              var d := ParseVec(num, tokens[1], tokens[2], tokens[3]).value;
              var r := Line(dispatch, g, tokens, num, rot);
              var n := |g.gts|;
              r.Continue? && r.gtc.objectLabels == g.objectLabels && |r.gtc.gts| == n &&
              r.gtc.gts[..n - 1] == g.gts[..n - 1] &&
              Map(r.gtc.gts[n - 1], x) == Add(Map(g.gts[n - 1], x), d)
  {
    assert !Is(tokens, "OBJECT");
  }

  /**
    ROTATED on a complex with a current object: it needs six tokens with
    ABOUT third and four readable numbers; then the current object's map
    becomes "old map, then rotate" and nothing else changes.
  */
  lemma RotatedLineMeaning(dispatch: Dispatch, g: GTComplex, tokens: seq<string>,
                           num: string -> Option<real>, rot: (Vec3, real) -> Mat3, x: Vec3)
    requires Is(tokens, "ROTATED") || Is(tokens, "ROT")
    requires Consistent(g)
    ensures |g.gts| == 0 ==> Line(dispatch, g, tokens, num, rot) == Stop(NoObjectForRotation)
    ensures |g.gts| > 0 && (|tokens| != 6 || !SameIgnoringCase(tokens[2], "ABOUT")) ==>
              Line(dispatch, g, tokens, num, rot) == Stop(SyntaxError)
    ensures |g.gts| > 0 && |tokens| == 6 && SameIgnoringCase(tokens[2], "ABOUT") &&
            num(tokens[1]).Some? && ParseVec(num, tokens[3], tokens[4], tokens[5]).Some? ==>
              var r := Line(dispatch, g, tokens, num, rot);
              var n := |g.gts|;
              var m := rot(ParseVec(num, tokens[3], tokens[4], tokens[5]).value, num(tokens[1]).value);
              r.Continue? && r.gtc.objectLabels == g.objectLabels && |r.gtc.gts| == n &&
              r.gtc.gts[..n - 1] == g.gts[..n - 1] &&
              Map(r.gtc.gts[n - 1], x) == MatVec(m, Map(g.gts[n - 1], x))
  {
    assert !Is(tokens, "OBJECT");
    if |g.gts| > 0 && |tokens| == 6 && SameIgnoringCase(tokens[2], "ABOUT") &&
       num(tokens[1]).Some? && ParseVec(num, tokens[3], tokens[4], tokens[5]).Some? {
      var m := rot(ParseVec(num, tokens[3], tokens[4], tokens[5]).value, num(tokens[1]).value);
      RotatedMap(g.gts[|g.gts| - 1], m, x);
    }
  }

  /** A first token that names no keyword stops the section with "unknown token". */
  lemma UnknownLine(dispatch: Dispatch, g: GTComplex, tokens: seq<string>,
                    num: string -> Option<real>, rot: (Vec3, real) -> Mat3)
    requires |tokens| > 0
    requires !Is(tokens, "OBJECT") && !Is(tokens, "DISPLACED") && !Is(tokens, "DISP")
    requires !Is(tokens, "ROTATED") && !Is(tokens, "ROT") && !Is(tokens, "ENDTRANSFORMATION")
    ensures Line(dispatch, g, tokens, num, rot) == Stop(UnknownToken(tokens[0]))
  {
  }

  /*** Properties of a whole section ***/

  /** A corrected section that parses yields one well-formed transformation per label. */
  lemma {:induction false} RunConsistent(dispatch: Dispatch, lines: seq<seq<string>>, i: nat, g: GTComplex,
                                         num: string -> Option<real>, rot: (Vec3, real) -> Mat3)
    requires i <= |lines| && Consistent(g)
    ensures Run(dispatch, lines, i, g, num, rot).Parsed? ==>
              Consistent(Run(dispatch, lines, i, g, num, rot).gtc) &&
              Run(dispatch, lines, i, g, num, rot).gtc.tag == g.tag
    decreases |lines| - i
  {
    if i < |lines| {
      if Skippable(lines[i]) {
        RunConsistent(dispatch, lines, i + 1, g, num, rot);
      } else {
        LineConsistent(dispatch, g, lines[i], num, rot);
        match Line(dispatch, g, lines[i], num, rot)
        case Continue(g') => RunConsistent(dispatch, lines, i + 1, g', num, rot);
        case Finish(_) =>
        case Stop(_) =>
      }
    }
  }

  /**
    One line finishes the section exactly when it is ENDTRANSFORMATION,
    and no line by itself reports "unexpected end of file".
  */
  lemma LineOutcome(dispatch: Dispatch, g: GTComplex, tokens: seq<string>,
                    num: string -> Option<real>, rot: (Vec3, real) -> Mat3)
    requires |tokens| > 0
    ensures Line(dispatch, g, tokens, num, rot).Finish? <==> Is(tokens, "ENDTRANSFORMATION")
    ensures Is(tokens, "ENDTRANSFORMATION") ==> Line(dispatch, g, tokens, num, rot) == Finish(g)
    ensures Line(dispatch, g, tokens, num, rot).Stop? ==> Line(dispatch, g, tokens, num, rot).err != UnexpectedEndOfFile
  {
    if Is(tokens, "ENDTRANSFORMATION") {
      KeywordsDistinct(tokens);
    }
  }

  /** No line before the last one a section reads is ENDTRANSFORMATION. */
  lemma {:induction false} RunNoTerminatorBefore(dispatch: Dispatch, lines: seq<seq<string>>, i: nat, g: GTComplex,
                                                 num: string -> Option<real>, rot: (Vec3, real) -> Mat3)
    requires i <= |lines|
    ensures var o := Run(dispatch, lines, i, g, num, rot);
            forall j :: i <= j < o.linesRead - 1 ==> !Is(lines[j], "ENDTRANSFORMATION")
    decreases |lines| - i
  {
    if i < |lines| {
      if Is(lines[i], "ENDTRANSFORMATION") {
        KeywordNotSkippable(lines[i], "ENDTRANSFORMATION");
        LineOutcome(dispatch, g, lines[i], num, rot);
      } else if Skippable(lines[i]) {
        RunNoTerminatorBefore(dispatch, lines, i + 1, g, num, rot);
      } else {
        match Line(dispatch, g, lines[i], num, rot)
        case Continue(g') => RunNoTerminatorBefore(dispatch, lines, i + 1, g', num, rot);
        case Finish(_) =>
        case Stop(_) =>
      }
    }
  }

  /** A section that parses ends on an ENDTRANSFORMATION line. */
  lemma {:induction false} RunParsedAtTerminator(dispatch: Dispatch, lines: seq<seq<string>>, i: nat, g: GTComplex,
                                                 num: string -> Option<real>, rot: (Vec3, real) -> Mat3)
    requires i <= |lines|
    ensures var o := Run(dispatch, lines, i, g, num, rot);
            o.Parsed? ==> Is(lines[o.linesRead - 1], "ENDTRANSFORMATION")
    decreases |lines| - i
  {
    if i < |lines| && !Skippable(lines[i]) {
      LineOutcome(dispatch, g, lines[i], num, rot);
      match Line(dispatch, g, lines[i], num, rot)
      case Continue(g') => RunParsedAtTerminator(dispatch, lines, i + 1, g', num, rot);
      case Finish(_) =>
      case Stop(_) =>
    } else if i < |lines| {
      RunParsedAtTerminator(dispatch, lines, i + 1, g, num, rot);
    }
  }

  /** "Unexpected end of file" comes only after every line has been read. */
  lemma {:induction false} RunEndOfFileReadsAll(dispatch: Dispatch, lines: seq<seq<string>>, i: nat, g: GTComplex,
                                                num: string -> Option<real>, rot: (Vec3, real) -> Mat3)
    requires i <= |lines|
    ensures var o := Run(dispatch, lines, i, g, num, rot);
            o.Failed? && o.err == UnexpectedEndOfFile ==> o.linesRead == |lines|
    decreases |lines| - i
  {
    if i < |lines| && !Skippable(lines[i]) {
      LineOutcome(dispatch, g, lines[i], num, rot);
      match Line(dispatch, g, lines[i], num, rot)
      case Continue(g') => RunEndOfFileReadsAll(dispatch, lines, i + 1, g', num, rot);
      case Finish(_) =>
      case Stop(_) =>
    } else if i < |lines| {
      RunEndOfFileReadsAll(dispatch, lines, i + 1, g, num, rot);
    }
  }

  /** As written, a line read on an empty complex never lets the section go on. */
  lemma AsWrittenNeverContinues(g: GTComplex, tokens: seq<string>,
                                num: string -> Option<real>, rot: (Vec3, real) -> Mat3)
    requires |tokens| > 0 && |g.gts| == 0
    ensures !Line(AsWritten, g, tokens, num, rot).Continue?
  {
    if Is(tokens, "OBJECT") {
      assert !Is(tokens, "DISPLACED") && !Is(tokens, "DISP");
      assert !Is(tokens, "ROTATED") && !Is(tokens, "ROT") && !Is(tokens, "ENDTRANSFORMATION");
    }
  }

  /**
    As written, a section that parses never names an object: the OBJECT
    line itself is then reported as an unknown token.
  */
  lemma {:induction false} AsWrittenParsesOnlyEmpty(lines: seq<seq<string>>, i: nat, tag: string,
                                                    num: string -> Option<real>, rot: (Vec3, real) -> Mat3)
    requires i <= |lines|
    ensures Run(AsWritten, lines, i, Empty(tag), num, rot).Parsed? ==>
              Run(AsWritten, lines, i, Empty(tag), num, rot).gtc == Empty(tag)
    decreases |lines| - i
  {
    if i < |lines| {
      if Skippable(lines[i]) {
        AsWrittenParsesOnlyEmpty(lines, i + 1, tag, num, rot);
      } else {
        AsWrittenNeverContinues(Empty(tag), lines[i], num, rot);
      }
    }
  }

  /** The section "OBJECT Box / ENDTRANSFORMATION", which shows the difference. */
  function OneObjectSection(): seq<seq<string>>
  {
    [["OBJECT", "Box"], ["ENDTRANSFORMATION"]]
  }

  /** As written, that section fails on its first line with "unknown token OBJECT". */
  lemma OneObjectSectionAsWritten(tag: string, num: string -> Option<real>, rot: (Vec3, real) -> Mat3)
    ensures Run(AsWritten, OneObjectSection(), 0, Empty(tag), num, rot) == Failed(UnknownToken("OBJECT"), 1)
  {
    var line := OneObjectSection()[0];
    assert Is(line, "OBJECT");
    assert !Is(line, "DISPLACED") && !Is(line, "DISP") && !Is(line, "ROTATED") && !Is(line, "ROT");
    assert !Is(line, "ENDTRANSFORMATION");
  }

  /** Corrected, it yields the object Box with the identity transformation. */
  lemma OneObjectSectionCorrected(tag: string, num: string -> Option<real>, rot: (Vec3, real) -> Mat3)
    ensures Run(Corrected, OneObjectSection(), 0, Empty(tag), num, rot) ==
            Parsed(GTComplex(tag, ["Box"], [IdentityTransformation()]), 2)
  {
    var lines := OneObjectSection();
    assert Is(lines[0], "OBJECT");
    assert !Skippable(lines[0]) && !Skippable(lines[1]);
    var g1 := GTComplex(tag, ["Box"], [IdentityTransformation()]);
    assert Line(Corrected, Empty(tag), lines[0], num, rot) == Continue(g1);
    KeywordsDistinct(lines[1]);
    assert Is(lines[1], "ENDTRANSFORMATION");
  }
}
