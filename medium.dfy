/**
  The MEDIUM ... ENDMEDIUM section of a .scuffgeo file
  (ProcessMediumSectionInFile): the only keyword is MATERIAL name, which
  names the material of the exterior medium.
*/
module MediumSection {
  import opened Text

  /** The three ErrExit messages of the section reader. */
  datatype MediumError =
    | SyntaxError               // "syntax error": MATERIAL without exactly one argument
    | UnknownKeyword(token: string)
    | UnexpectedEndOfFile

  /** What the reader leaves behind: the name, and how far *LineNum advanced. */
  datatype Outcome = Read(material: string, linesRead: nat) | Failed(err: MediumError, linesRead: nat)

  /** A line "MATERIAL name" with exactly the one argument. */
  predicate MaterialLine(tokens: seq<string>)
  {
    Is(tokens, "MATERIAL") && |tokens| == 2
  }

  /** The while loop from line i on, with the name copied so far. */
  function Run(lines: seq<seq<string>>, i: nat, material: string): (o: Outcome)
    requires i <= |lines|
    ensures i <= o.linesRead <= |lines|
    ensures o.Read? ==> i < o.linesRead
    decreases |lines| - i
  {
    if i == |lines| then Failed(UnexpectedEndOfFile, |lines|)
    else if Skippable(lines[i]) then Run(lines, i + 1, material)
    else if Is(lines[i], "MATERIAL") then
      if |lines[i]| != 2 then Failed(SyntaxError, i + 1) else Run(lines, i + 1, lines[i][1])
    else if Is(lines[i], "ENDMEDIUM") then Read(material, i + 1)
    else Failed(UnknownKeyword(lines[i][0]), i + 1)
  }

  /**
    ProcessMediumSectionInFile: ExteriorMPName starts empty; lines are the
    rest of the file and newLineNum is *LineNum on return.
  */
  method ReadMediumSection(lines: seq<seq<string>>, lineNum: int)
    returns (err: Option<MediumError>, material: string, newLineNum: int)
    ensures var o := Run(lines, 0, "");
            newLineNum == lineNum + o.linesRead &&
            (o.Read? ==> err == None && material == o.material) &&
            (o.Failed? ==> err == Some(o.err))
  {
    material := "";
    newLineNum := lineNum;
    var i := 0;
    while i < |lines|
      invariant 0 <= i <= |lines|
      invariant newLineNum == lineNum + i
      invariant Run(lines, i, material) == Run(lines, 0, "")
    {
      var tokens := lines[i];
      i := i + 1;
      newLineNum := newLineNum + 1;
      if Skippable(tokens) {
        continue;
      }
      if Is(tokens, "MATERIAL") {
        if |tokens| != 2 {
          return Some(SyntaxError), material, newLineNum;
        }
        material := tokens[1];
      } else if Is(tokens, "ENDMEDIUM") {
        return None, material, newLineNum;
      } else {
        return Some(UnknownKeyword(tokens[0])), material, newLineNum;
      }
    }
    err := Some(UnexpectedEndOfFile);
  }

  /** The name given by the last well-formed MATERIAL line of ls, or m when there is none. */
  function LastMaterial(ls: seq<seq<string>>, m: string): string
  {
    if |ls| == 0 then m
    else if MaterialLine(ls[|ls| - 1]) then ls[|ls| - 1][1]
    else LastMaterial(ls[..|ls| - 1], m)
  }

  /** Taking the first line off: a MATERIAL line there becomes the fallback name. */
  lemma {:induction false} LastMaterialFront(ls: seq<seq<string>>, m: string)
    requires |ls| > 0
    ensures LastMaterial(ls, m) == LastMaterial(ls[1..], if MaterialLine(ls[0]) then ls[0][1] else m)
    decreases |ls|
  {
    var m' := if MaterialLine(ls[0]) then ls[0][1] else m;
    if |ls| > 1 && !MaterialLine(ls[|ls| - 1]) {
      LastMaterialFront(ls[..|ls| - 1], m);
      assert ls[..|ls| - 1][1..] == ls[1..][..|ls[1..]| - 1];
    }
  }

  /** A section body that the reader accepts: lines i .. n-2 are blank, comments or MATERIAL lines, line n-1 is ENDMEDIUM. */
  predicate WellFormedSection(lines: seq<seq<string>>, i: nat, n: nat)
  {
    i < n <= |lines| && Is(lines[n - 1], "ENDMEDIUM") &&
    forall j :: i <= j < n - 1 ==> Skippable(lines[j]) || MaterialLine(lines[j])
  }

  /**
    The reader succeeds exactly on a well-formed section, and then the
    exterior material is the one named last (or the starting name if no
    MATERIAL line was given).
  */
  lemma {:induction false} RunMeaning(lines: seq<seq<string>>, i: nat, m: string, material: string, n: nat)
    requires i <= |lines|
    ensures Run(lines, i, m) == Read(material, n) <==>
            WellFormedSection(lines, i, n) && material == LastMaterial(lines[i..n - 1], m)
    decreases |lines| - i
  {
    if i == |lines| {
      return;
    }
    var t := lines[i];
    var m' := if MaterialLine(t) then t[1] else m;
    if Is(t, "ENDMEDIUM") {
      KeywordNotSkippable(t, "ENDMEDIUM");
      Exclusive(t, "MATERIAL", "ENDMEDIUM", 0);
      assert Run(lines, i, m) == Read(m, i + 1);
      return;
    }
    if Skippable(t) || MaterialLine(t) {
      if Skippable(t) {
        assert Run(lines, i, m) == Run(lines, i + 1, m');
      }
      RunMeaning(lines, i + 1, m', material, n);
      if i + 1 < n <= |lines| {
        LastMaterialFront(lines[i..n - 1], m);
        assert lines[i..n - 1][1..] == lines[i + 1..n - 1];
      }
      if WellFormedSection(lines, i, n) && n > i + 1 {
        assert WellFormedSection(lines, i + 1, n);
      }
    } else {
      assert Run(lines, i, m).Failed?;
    }
  }
}
