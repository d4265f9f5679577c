/**
  The nesting pass of the RWGGeometry constructor: an insertion pass over
  the object array that puts every object after the objects containing it
  and records, for each object, the innermost object that contains it.

  contains(A, B) stands for A->Contains(B), a geometric test (on kd-trees
  of the panels) that is not part of this model.  The properties ask of it
  only what containment of closed surfaces that do not cross gives: no
  object contains itself, containment is transitive, and two objects that
  contain the same object are nested.
*/
module Nesting {
  import opened Surface

  /** Among the objects of pool, containment is irreflexive and transitive (so also asymmetric). */
  predicate StrictOrder(pool: seq<RWGSurface>, contains: (RWGSurface, RWGSurface) -> bool)
  {
    (forall a | a in pool :: !contains(a, a)) &&
    (forall a, b, c | a in pool && b in pool && c in pool :: contains(a, b) && contains(b, c) ==> contains(a, c))
  }

  /**
    Two objects containing the same object are nested, one inside the
    other, as closed surfaces that do not cross one another are.
  */
  predicate Nested(pool: seq<RWGSurface>, contains: (RWGSurface, RWGSurface) -> bool)
  {
    forall a, b, x | a in pool && b in pool && x in pool ::
      contains(a, x) && contains(b, x) && a != b ==> contains(a, b) || contains(b, a)
  }

  /** No object is listed twice. */
  predicate Distinct(s: seq<RWGSurface>)
  {
    forall i, j :: 0 <= i < j < |s| ==> s[i] != s[j]
  }

  lemma {:induction false} CountOfDistinct(s: seq<RWGSurface>, x: RWGSurface)
    requires Distinct(s)
    ensures multiset(s)[x] <= 1
    decreases |s|
  {
    if |s| > 0 {
      var n := |s| - 1;
      assert s == s[..n] + [s[n]];
      CountOfDistinct(s[..n], x);
      if x == s[n] {
        assert x !in s[..n];
      }
    }
  }

  /** Reordering keeps the entries distinct. */
  lemma DistinctPermutation(a: seq<RWGSurface>, b: seq<RWGSurface>)
    requires Distinct(a) && multiset(a) == multiset(b)
    ensures Distinct(b)
  {
    forall i, j | 0 <= i < j < |b|
      ensures b[i] != b[j]
    {
      if b[i] == b[j] {
        assert b == b[..i] + [b[i]] + b[i + 1..j] + [b[j]] + b[j + 1..];
        assert multiset(b)[b[i]] >= 2;
        CountOfDistinct(a, b[i]);
      }
    }
  }


  /** Among the first n objects, none contains an object listed before it. */
  predicate TopoSorted(s: seq<RWGSurface>, n: nat, contains: (RWGSurface, RWGSurface) -> bool)
    requires n <= |s|
  {
    forall i, j :: 0 <= i < j < n ==> !contains(s[j], s[i])
  }

  /** Every recorded container does contain its object. */
  predicate ContainersValid(s: seq<RWGSurface>, contains: (RWGSurface, RWGSurface) -> bool)
    reads s
  {
    forall o | o in s :: o.containing != null ==> contains(o.containing, o)
  }

  /**
    c is the container x should record among the objects of pool: the
    innermost of them that contains x, or null when none contains it.
  */
  predicate Innermost(pool: seq<RWGSurface>, x: RWGSurface, c: RWGSurface?, contains: (RWGSurface, RWGSurface) -> bool)
  {
    if c == null then forall y | y in pool :: !contains(y, x)
    else c in pool && contains(c, x) && forall y | y in pool && y != c && contains(y, x) :: contains(y, c)
  }

  /** Innermost depends on the objects of the pool, not on their order. */
  lemma InnermostSamePool(p: seq<RWGSurface>, q: seq<RWGSurface>, x: RWGSurface, c: RWGSurface?,
                          contains: (RWGSurface, RWGSurface) -> bool)
    requires Innermost(p, x, c, contains) && forall y :: y in p <==> y in q
    ensures Innermost(q, x, c, contains)
  {
  }

  /** The container links of the objects s, in their order. */
  function LinksOf(s: seq<RWGSurface>): (r: seq<RWGSurface?>)
    reads s
    ensures |r| == |s| && forall k :: 0 <= k < |s| ==> r[k] == s[k].containing
  {
    if s == [] then [] else [s[0].containing] + LinksOf(s[1..])
  }

  /**
    The container an object x gets when O moves past it in the shift, x
    having recorded link and O having recorded oLink: O itself when O
    contains x and the two recorded the same container, link otherwise.
  */
  function Reparented(x: RWGSurface, link: RWGSurface?, o: RWGSurface, oLink: RWGSurface?,
                      contains: (RWGSurface, RWGSurface) -> bool): RWGSurface?
  {
    if link == oLink && contains(o, x) then o else link
  }

  /**
    Adding O to pool, when each of x and O records its innermost container
    (O among pool and itself), the re-parenting of x gives x its innermost
    container among pool and O.
  */
  lemma {:induction false} AddInnermost(pool: seq<RWGSurface>, x: RWGSurface, link: RWGSurface?,
                                        o: RWGSurface, oLink: RWGSurface?,
                                        contains: (RWGSurface, RWGSurface) -> bool, all: seq<RWGSurface>)
    requires StrictOrder(all, contains) && Nested(all, contains)
    requires forall y :: y in pool ==> y in all
    requires o in all && o !in pool && x in pool
    requires Innermost(pool, x, link, contains)
    requires Innermost(pool + [o], o, oLink, contains)
    ensures Innermost(pool + [o], x, Reparented(x, link, o, oLink, contains), contains)
  {
    var q := pool + [o];
    assert forall y :: y in q <==> y in pool || y == o;
    if !contains(o, x) {
      // O adds no container of x
    } else if link == oLink {
      // O becomes x's container: every other container of x contains O
      forall y | y in q && y != o && contains(y, x)
        ensures contains(y, o)
      {
        assert y in pool;
        if contains(o, y) {
          // y is link or contains it, and link contains O: a cycle through O
          assert false;
        }
      }
    } else {
      // x keeps its container, which O contains
      assert link != null by {
        if link == null && oLink != null {
          // oLink contains O, so it would contain x
          assert false;
        }
      }
      if contains(link, o) {
        // link would contain oLink, which contains x and so contains link
        assert false;
      }
      assert contains(o, link);
    }
  }

  /** A permutation of objects drawn from pool draws from pool. */
  lemma PermutationInPool(s: seq<RWGSurface>, t: seq<RWGSurface>, pool: seq<RWGSurface>)
    requires multiset(t) == multiset(s) && forall k :: 0 <= k < |s| ==> s[k] in pool
    ensures forall k :: 0 <= k < |t| ==> t[k] in pool
  {
    forall k | 0 <= k < |t|
      ensures t[k] in pool
    {
      assert t[k] in multiset(s);
      var j :| 0 <= j < |s| && s[j] == t[k];
    }
  }

  /** s with its entry no moved to position noi and the entries noi..no-1 shifted up by one. */
  function Inserted<T>(s: seq<T>, no: nat, noi: nat): seq<T>
    requires noi <= no < |s|
  {
    seq(|s|, k requires 0 <= k < |s| =>
      if k < noi then s[k] else if k == noi then s[no] else if k <= no then s[k - 1] else s[k])
  }

  lemma InsertedAt<T>(s: seq<T>, no: nat, noi: nat)
    requires noi <= no < |s|
    ensures |Inserted(s, no, noi)| == |s|
    ensures forall k :: 0 <= k < noi ==> Inserted(s, no, noi)[k] == s[k]
    ensures Inserted(s, no, noi)[noi] == s[no]
    ensures forall k :: noi < k <= no ==> Inserted(s, no, noi)[k] == s[k - 1]
    ensures forall k :: no < k < |s| ==> Inserted(s, no, noi)[k] == s[k]
  {
  }

  /** Moving one entry is a permutation. */
  lemma InsertedPermutation(s: seq<RWGSurface>, no: nat, noi: nat)
    requires noi <= no < |s|
    ensures multiset(Inserted(s, no, noi)) == multiset(s)
  {
    assert Inserted(s, no, noi) == s[..noi] + [s[no]] + s[noi..no] + s[no + 1..];
    assert s == s[..noi] + s[noi..no] + [s[no]] + s[no + 1..];
  }

  /**
    The step that keeps the order: O = s[no] is put at noi, where c is the
    first container of O met scanning down from no-1 (-1 if none), none of
    the objects between c and no contains O, and O contains none of the
    objects between c and noi.
  */
  lemma {:induction false} InsertedSorted(s: seq<RWGSurface>, no: nat, noi: nat, c: int,
                                          contains: (RWGSurface, RWGSurface) -> bool, pool: seq<RWGSurface>)
    requires StrictOrder(pool, contains) && forall k :: 0 <= k < |s| ==> s[k] in pool
    requires -1 <= c < noi <= no < |s|
    requires TopoSorted(s, no, contains)
    requires c >= 0 ==> contains(s[c], s[no])
    requires forall k :: c < k < no ==> !contains(s[k], s[no])
    requires forall k :: c < k < noi ==> !contains(s[no], s[k])
    ensures TopoSorted(Inserted(s, no, noi), no + 1, contains)
  {
    var t := Inserted(s, no, noi);
    var o := s[no];
    InsertedAt(s, no, noi);
    forall i, j | 0 <= i < j < no + 1
      ensures !contains(t[j], t[i])
    {
      if j == noi {
        // t[j] is O and t[i] = s[i] with i < noi: at or below c, O containing
        // s[i] would make s[c] contain s[i]; above c it is excluded outright
        assert t[i] == s[i];
      } else if i == noi {
        // t[i] is O, t[j] = s[j-1] with noi <= j-1 < no
        assert t[j] == s[j - 1];
      } else {
        var i' := if i < noi then i else i - 1;
        var j' := if j < noi then j else j - 1;
        assert t[i] == s[i'] && t[j] == s[j'] && i' < j' < no;
      }
    }
  }

  /**
    The container the scan records for O = s[no] is its innermost one among
    the first no+1 objects: s[c] when the scan stopped at c, none otherwise.
  */
  lemma {:induction false} ScanFindsInnermost(s: seq<RWGSurface>, no: nat, c: int,
                                              contains: (RWGSurface, RWGSurface) -> bool, all: seq<RWGSurface>)
    requires StrictOrder(all, contains) && Nested(all, contains) && forall k :: 0 <= k < |s| ==> s[k] in all
    requires -1 <= c < no < |s|
    requires TopoSorted(s, no, contains)
    requires c >= 0 ==> contains(s[c], s[no])
    requires forall k :: c < k < no ==> !contains(s[k], s[no])
    ensures Innermost(s[..no + 1], s[no], if c >= 0 then s[c] else null, contains)
  {
    var q := s[..no + 1];
    if c < 0 {
      forall y | y in q
        ensures !contains(y, s[no])
      {
        var k :| 0 <= k <= no && q[k] == y;
      }
    } else {
      assert q[c] == s[c];
      forall y | y in q && y != s[c] && contains(y, s[no])
        ensures contains(y, s[c])
      {
        var k :| 0 <= k <= no && q[k] == y;
        // an earlier container of O is outside s[c], which it does not follow
        assert k < c && !contains(s[c], s[k]);
      }
    }
  }

  /** O contains none of the objects before its slot noi. */
  lemma PassedNotContained(s: seq<RWGSurface>, no: nat, noi: nat, c: int, k: nat,
                           contains: (RWGSurface, RWGSurface) -> bool, all: seq<RWGSurface>)
    requires StrictOrder(all, contains) && forall j :: 0 <= j < |s| ==> s[j] in all
    requires -1 <= c < noi <= no < |s| && k < noi
    requires TopoSorted(s, no, contains)
    requires c >= 0 ==> contains(s[c], s[no])
    requires forall j :: c < j < noi ==> !contains(s[no], s[j])
    ensures !contains(s[no], s[k])
  {
    if k < c {
      // s[c] contains O, and does not contain s[k], which comes before it
      assert s[k] in all && s[c] in all && s[no] in all && !contains(s[c], s[k]);
    } else if k == c {
      assert s[c] in all && s[no] in all;
    }
  }

  /**
    The links after the shift, by position before it: each object O =
    s[no] moves past is re-parented, and the others keep their links L.
  */
  function ShiftedLinks(s: seq<RWGSurface>, L: seq<RWGSurface?>, no: nat, noi: nat,
                        contains: (RWGSurface, RWGSurface) -> bool): (r: seq<RWGSurface?>)
    requires noi <= no < |s| == |L|
    ensures |r| == |s|
  {
    seq(|s|, k requires 0 <= k < |s| =>
      if noi <= k < no then Reparented(s[k], L[k], s[no], L[no], contains) else L[k])
  }

  /**
    The links after one step, by position before it: O = s[no] records the
    container the scan found, then the shift re-parents the objects O moves
    past.
  */
  function StepLinks(s: seq<RWGSurface>, L: seq<RWGSurface?>, no: nat, noi: nat, c: int,
                     contains: (RWGSurface, RWGSurface) -> bool): (r: seq<RWGSurface?>)
    requires |L| == |s| && -1 <= c < noi <= no < |s|
    ensures |r| == |s|
  {
    ShiftedLinks(s, L[no := if c >= 0 then s[c] else null], no, noi, contains)
  }

  /**
    One step keeps every recorded container the innermost one: when the
    first no objects record theirs among themselves, after the step the
    first no+1 do among themselves.
  */
  lemma {:induction false} StepInnermost(s: seq<RWGSurface>, L: seq<RWGSurface?>, no: nat, noi: nat, c: int,
                                         contains: (RWGSurface, RWGSurface) -> bool, all: seq<RWGSurface>)
    requires StrictOrder(all, contains) && Nested(all, contains) && forall k :: 0 <= k < |s| ==> s[k] in all
    requires Distinct(s) && |L| == |s|
    requires -1 <= c < noi <= no < |s|
    requires TopoSorted(s, no, contains)
    requires forall k :: 0 <= k < no ==> Innermost(s[..no], s[k], L[k], contains)
    requires c >= 0 ==> contains(s[c], s[no])
    requires forall k :: c < k < no ==> !contains(s[k], s[no])
    requires forall k :: c < k < noi ==> !contains(s[no], s[k])
    ensures forall k :: 0 <= k <= no ==> Innermost(s[..no + 1], s[k], StepLinks(s, L, no, noi, c, contains)[k], contains)
  {
    var o, p := s[no], s[..no];
    var oLink := if c >= 0 then s[c] else null;
    var r := StepLinks(s, L, no, noi, c, contains);
    ScanFindsInnermost(s, no, c, contains, all);
    assert s[..no + 1] == p + [o];
    forall y | y in p
      ensures y in all && y != o
    {
      var j :| 0 <= j < no && p[j] == y;
      assert s[j] != s[no];
    }
    forall k | 0 <= k < no
      ensures Innermost(s[..no + 1], s[k], r[k], contains)
    {
      assert p[k] == s[k];
      AddInnermost(p, s[k], L[k], o, oLink, contains, all);
      if k < noi {
        PassedNotContained(s, no, noi, c, k, contains, all);
      }
    }
  }

  /** The first n objects record their innermost containers among themselves; the others record none. */
  predicate RecordsInnermost(s: seq<RWGSurface>, links: seq<RWGSurface?>, n: nat,
                             contains: (RWGSurface, RWGSurface) -> bool)
    requires n <= |s| == |links|
  {
    (forall k :: 0 <= k < n ==> Innermost(s[..n], s[k], links[k], contains)) &&
    (forall k :: n <= k < |s| ==> links[k] == null)
  }

  /**
    The step as the array sees it: after O is put at noi, with each object
    carrying its new link, the first no+1 objects record their innermost
    containers and the rest still record none.
  */
  lemma {:induction false} StepRecordsInnermost(s: seq<RWGSurface>, L: seq<RWGSurface?>, no: nat, noi: nat, c: int,
                                                contains: (RWGSurface, RWGSurface) -> bool, all: seq<RWGSurface>)
    requires StrictOrder(all, contains) && Nested(all, contains) && forall k :: 0 <= k < |s| ==> s[k] in all
    requires Distinct(s) && |L| == |s|
    requires -1 <= c < noi <= no < |s|
    requires TopoSorted(s, no, contains) && RecordsInnermost(s, L, no, contains)
    requires c >= 0 ==> contains(s[c], s[no])
    requires forall k :: c < k < no ==> !contains(s[k], s[no])
    requires forall k :: c < k < noi ==> !contains(s[no], s[k])
    ensures RecordsInnermost(Inserted(s, no, noi), Inserted(StepLinks(s, L, no, noi, c, contains), no, noi), no + 1, contains)
  {
    var r := StepLinks(s, L, no, noi, c, contains);
    var t, tr := Inserted(s, no, noi), Inserted(r, no, noi);
    StepInnermost(s, L, no, noi, c, contains, all);
    InsertedAt(s, no, noi);
    InsertedAt(r, no, noi);
    InsertedPrefix(s, no, noi, t[..no + 1], s[..no + 1]);
    forall k | 0 <= k <= no
      ensures Innermost(t[..no + 1], t[k], tr[k], contains)
    {
      var j := if k < noi then k else if k == noi then no else k - 1;
      assert t[k] == s[j] && tr[k] == r[j];
      InnermostSamePool(s[..no + 1], t[..no + 1], s[j], r[j], contains);
    }
  }

  /** The move keeps the first no+1 objects the same, in another order. */
  lemma InsertedPrefix(s: seq<RWGSurface>, no: nat, noi: nat, p: seq<RWGSurface>, q: seq<RWGSurface>)
    requires noi <= no < |s| && p == Inserted(s, no, noi)[..no + 1] && q == s[..no + 1]
    ensures forall y :: y in p <==> y in q
  {
    InsertedAt(s, no, noi);
    assert p == s[..noi] + [s[no]] + s[noi..no];
    assert s[..no + 1] == s[..noi] + s[noi..no] + [s[no]];
  }

  /**
    Before the pass, when no object records a container, the pass stands
    before step 1: the first object alone is in order and records no
    container, since it does not contain itself.
  */
  lemma RecordsInnermostFirst(s: seq<RWGSurface>, links: seq<RWGSurface?>, contains: (RWGSurface, RWGSurface) -> bool)
    requires 1 <= |s| == |links| && forall k :: 0 <= k < |links| ==> links[k] == null
    requires StrictOrder(s, contains) && Distinct(s)
    ensures Sorting(s, links, 1, s, contains)
  {
    assert s[..1] == [s[0]];
  }

  /**
    Once the pass has covered every object, the objects are those it began
    with, in nesting order, and each records its innermost container among
    all of them.
  */
  lemma RecordsInnermostAll(s: seq<RWGSurface>, links: seq<RWGSurface?>, pool: seq<RWGSurface>,
                            contains: (RWGSurface, RWGSurface) -> bool)
    requires Sorting(s, links, |s|, pool, contains)
    ensures multiset(s) == multiset(pool) && TopoSorted(s, |s|, contains)
    ensures forall k :: 0 <= k < |s| ==> Innermost(s, s[k], links[k], contains)
  {
    assert s[..|s|] == s;
  }

  /** An object that records its innermost container records one that contains it. */
  lemma InnermostValid(s: seq<RWGSurface>, contains: (RWGSurface, RWGSurface) -> bool)
    requires forall k :: 0 <= k < |s| ==> Innermost(s, s[k], s[k].containing, contains)
    ensures ContainersValid(s, contains)
  {
    forall o | o in s && o.containing != null
      ensures contains(o.containing, o)
    {
      var k :| 0 <= k < |s| && s[k] == o;
    }
  }

  /** The links follow their objects when one object is moved. */
  lemma LinksOfInserted(s: seq<RWGSurface>, no: nat, noi: nat)
    requires noi <= no < |s|
    ensures LinksOf(Inserted(s, no, noi)) == Inserted(LinksOf(s), no, noi)
  {
    InsertedAt(s, no, noi);
    InsertedAt(LinksOf(s), no, noi);
  }

  /**
    The scan of one step: from nop = no-1 down to 0, stop at the first
    object that contains O (and record it as O's container); otherwise note
    the lowest-placed object O contains.  Returns where O must go.
  */
  method FindInsertionPoint(objects: array<RWGSurface>, no: nat, contains: (RWGSurface, RWGSurface) -> bool)
    returns (noi: nat, ghost c: int)
    requires no < objects.Length
    modifies objects[no]
    ensures -1 <= c < noi <= no
    ensures c >= 0 ==> contains(objects[c], objects[no]) && objects[no].containing == objects[c]
    ensures c < 0 ==> objects[no].containing == old(objects[no].containing)
    ensures forall k :: c < k < no ==> !contains(objects[k], objects[no])
    ensures forall k :: c < k < noi ==> !contains(objects[no], objects[k])
  {
    var o := objects[no];
    noi := no;
    c := -1;
    var nop := no - 1;
    while nop >= 0
      invariant -1 <= nop < no && nop < noi <= no
      invariant forall k :: nop < k < no ==> !contains(objects[k], o)
      invariant forall k :: nop < k < noi ==> !contains(o, objects[k])
      invariant o.containing == old(o.containing)
    {
      if contains(objects[nop], o) {
        o.containing := objects[nop];
        c := nop;
        return;
      } else if contains(o, objects[nop]) {
        noi := nop;
      }
      nop := nop - 1;
    }
  }

  /**
    One move of the shift: the object at nop-1 goes up to nop, and becomes
    contained by O when O contains it and it had the same container as O.
  */
  method ShiftOne(objects: array<RWGSurface>, nop: nat, o: RWGSurface, contains: (RWGSurface, RWGSurface) -> bool)
    requires 0 < nop < objects.Length
    modifies objects, objects[nop - 1]
    ensures objects[..] == old(objects[..])[nop := old(objects[nop - 1])]
    ensures old(objects[nop - 1]).containing ==
            Reparented(old(objects[nop - 1]), old(objects[nop - 1].containing), o, old(o.containing), contains)
  {
    var moved := objects[nop - 1];
    objects[nop] := moved;
    if moved.containing == o.containing && contains(o, moved) {
      moved.containing := o;
    }
  }

  /** s with the entries nop..no-1 copied up by one (entry nop is then in two places). */
  function Shifted(s: seq<RWGSurface>, no: nat, nop: nat): seq<RWGSurface>
    requires nop <= no < |s|
  {
    seq(|s|, k requires 0 <= k < |s| => if k <= nop then s[k] else if k <= no then s[k - 1] else s[k])
  }

  lemma ShiftedNone(s: seq<RWGSurface>, no: nat)
    requires no < |s|
    ensures Shifted(s, no, no) == s
  {
    assert s == s[..no + 1] + s[no + 1..];
  }

  /** Copying entry nop-1 up to nop shifts one entry further. */
  lemma ShiftedStep(s: seq<RWGSurface>, no: nat, nop: nat)
    requires 0 < nop <= no < |s|
    ensures Shifted(s, no, nop)[nop := Shifted(s, no, nop)[nop - 1]] == Shifted(s, no, nop - 1)
  {
    var t, u := Shifted(s, no, nop), Shifted(s, no, nop - 1);
    assert |t| == |u| == |s|;
    forall k | 0 <= k < |s|
      ensures t[nop := t[nop - 1]][k] == u[k]
    {
      if k < nop {
        assert t[k] == s[k] && u[k] == s[k];
      } else if k <= no {
        assert u[k] == s[k - 1];
      } else {
        assert t[k] == s[k] && u[k] == s[k];
      }
    }
  }

  /** Once the entries noi..no-1 are shifted, putting O = s[no] at noi is Inserted. */
  lemma ShiftedThenPut(s: seq<RWGSurface>, no: nat, noi: nat)
    requires noi <= no < |s|
    ensures Shifted(s, no, noi)[noi := s[no]] == Inserted(s, no, noi)
  {
    var t, u := Shifted(s, no, noi)[noi := s[no]], Inserted(s, no, noi);
    InsertedAt(s, no, noi);
    forall k | 0 <= k < |s|
      ensures t[k] == u[k]
    {
      if k < noi {
        assert t[k] == s[k];
      } else if noi < k <= no {
        assert t[k] == s[k - 1];
      } else if no < k {
        assert t[k] == s[k];
      }
    }
  }

  /**
    The shift of one step: move objects noi..no-1 up by one, put O at noi,
    and make O the container of each moved object that O contains and that
    had the same container as O.
  */
  method ShiftAndInsert(objects: array<RWGSurface>, no: nat, noi: nat, contains: (RWGSurface, RWGSurface) -> bool)
    requires noi <= no < objects.Length
    requires Distinct(objects[..])
    modifies objects, objects[..]
    ensures objects[..] == Inserted(old(objects[..]), no, noi)
    ensures LinksOf(objects[..]) == Inserted(ShiftedLinks(old(objects[..]), old(LinksOf(objects[..])), no, noi, contains), no, noi)
  {
    ghost var s := objects[..];
    ghost var links := LinksOf(s);
    var o := objects[no];
    ShiftUp(objects, no, noi, o, contains);
    assert LinksOf(s) == ShiftedLinks(s, links, no, noi, contains) by {
      forall k | 0 <= k < |s|
        ensures s[k].containing == ShiftedLinks(s, links, no, noi, contains)[k]
      {
      }
    }
    objects[noi] := o;
    ShiftedThenPut(s, no, noi);
    LinksOfInserted(s, no, noi);
  }

  /**
    The loop of the shift: from nop = no down to noi+1, move the object at
    nop-1 up to nop, re-parenting it when O contains it and it had O's
    container.
  */
  method ShiftUp(objects: array<RWGSurface>, no: nat, noi: nat, o: RWGSurface, contains: (RWGSurface, RWGSurface) -> bool)
    requires noi <= no < objects.Length && o == objects[no]
    requires Distinct(objects[..])
    modifies objects, objects[..]
    ensures objects[..] == Shifted(old(objects[..]), no, noi)
    ensures forall k :: noi <= k < no ==>
              old(objects[k]).containing == Reparented(old(objects[k]), old(objects[k].containing), o, old(o.containing), contains)
    ensures forall k :: 0 <= k < objects.Length && !(noi <= k < no) ==> old(objects[k]).containing == old(objects[k].containing)
  {
    ghost var s := objects[..];
    var nop := no;
    ShiftedNone(s, no);
    while nop > noi
      invariant noi <= nop <= no
      invariant objects[..] == Shifted(s, no, nop)
      invariant forall k :: nop <= k < no ==>
                  s[k].containing == Reparented(s[k], old(s[k].containing), o, old(o.containing), contains)
      invariant forall k :: 0 <= k < |s| && !(nop <= k < no) ==> s[k].containing == old(s[k].containing)
    {
      assert objects[nop - 1] == s[nop - 1] && s[nop - 1] != s[no];
      ShiftOne(objects, nop, o, contains);
      ShiftedStep(s, no, nop);
      nop := nop - 1;
    }
  }

  /**
    Where the pass stands before step no: the objects are those of pool,
    reordered, the first no in nesting order, each of them recording its
    innermost container among the first no, and the rest recording none.
  */
  predicate Sorting(s: seq<RWGSurface>, links: seq<RWGSurface?>, no: nat, pool: seq<RWGSurface>,
                    contains: (RWGSurface, RWGSurface) -> bool)
  {
    1 <= no <= |s| == |links| && multiset(s) == multiset(pool) && (forall k :: 0 <= k < |s| ==> s[k] in pool) &&
    Distinct(s) && TopoSorted(s, no, contains) && RecordsInnermost(s, links, no, contains)
  }

  /**
    One step of the pass: Objects[no] is scanned for and put at its slot,
    and the objects it moves past re-parented.
  */
  method InsertNext(objects: array<RWGSurface>, no: nat, contains: (RWGSurface, RWGSurface) -> bool,
                    ghost pool: seq<RWGSurface>)
    requires no < objects.Length
    requires StrictOrder(pool, contains) && Nested(pool, contains)
    requires Sorting(objects[..], LinksOf(objects[..]), no, pool, contains)
    modifies objects, objects[..]
    ensures Sorting(objects[..], LinksOf(objects[..]), no + 1, pool, contains)
  {
    ghost var s := objects[..];
    ghost var links := LinksOf(s);
    var noi;
    ghost var c;
    noi, c := FindInsertionPoint(objects, no, contains);
    // the scan changed only O's link
    assert objects[..] == s;
    assert LinksOf(s) == links[no := if c >= 0 then s[c] else null];
    PlaceAt(objects, no, noi, c, contains, pool, links);
  }

  /**
    The rest of one step, once the scan has put O's container in O's link:
    the shift and the store of O at noi.
  */
  method PlaceAt(objects: array<RWGSurface>, no: nat, noi: nat, ghost c: int, contains: (RWGSurface, RWGSurface) -> bool,
                 ghost pool: seq<RWGSurface>, ghost links: seq<RWGSurface?>)
    requires -1 <= c < noi <= no < objects.Length && |links| == objects.Length
    requires StrictOrder(pool, contains) && Nested(pool, contains)
    requires Sorting(objects[..], links, no, pool, contains)
    requires c >= 0 ==> contains(objects[c], objects[no])
    requires forall k :: c < k < no ==> !contains(objects[k], objects[no])
    requires forall k :: c < k < noi ==> !contains(objects[no], objects[k])
    requires LinksOf(objects[..]) == links[no := if c >= 0 then objects[c] else null]
    modifies objects, objects[..]
    ensures Sorting(objects[..], LinksOf(objects[..]), no + 1, pool, contains)
  {
    ghost var s := objects[..];
    ghost var found := LinksOf(s);
    ShiftAndInsert(objects, no, noi, contains);
    StepFacts(s, links, found, ShiftedLinks(s, found, no, noi, contains), no, noi, c, contains, pool);
  }

  /** What one step makes of the objects and their links, on values. */
  lemma StepFacts(s: seq<RWGSurface>, links: seq<RWGSurface?>, found: seq<RWGSurface?>, after: seq<RWGSurface?>,
                  no: nat, noi: nat, c: int, contains: (RWGSurface, RWGSurface) -> bool, pool: seq<RWGSurface>)
    requires -1 <= c < noi <= no < |s| == |links| == |found| == |after|
    requires StrictOrder(pool, contains) && Nested(pool, contains)
    requires Sorting(s, links, no, pool, contains)
    requires c >= 0 ==> contains(s[c], s[no])
    requires forall k :: c < k < no ==> !contains(s[k], s[no])
    requires forall k :: c < k < noi ==> !contains(s[no], s[k])
    requires found == links[no := if c >= 0 then s[c] else null]
    requires after == ShiftedLinks(s, found, no, noi, contains)
    ensures Sorting(Inserted(s, no, noi), Inserted(after, no, noi), no + 1, pool, contains)
  {
    InsertedSorted(s, no, noi, c, contains, pool);
    StepRecordsInnermost(s, links, no, noi, c, contains, pool);
    InsertedPermutation(s, no, noi);
    DistinctPermutation(s, Inserted(s, no, noi));
    PermutationInPool(s, Inserted(s, no, noi), pool);
  }

  /**
    The pass of the constructor: for no = 1 .. NumObjects-1, find where
    Objects[no] goes and insert it there.  The array ends a permutation of
    what it was, with every container before what it contains, and every
    object recording as its container the innermost object containing it
    (none when no object does).  The objects come from the RWGSurface
    constructor, so none records a container yet.
  */
  method SortByNesting(objects: array<RWGSurface>, contains: (RWGSurface, RWGSurface) -> bool)
    requires StrictOrder(objects[..], contains) && Nested(objects[..], contains)
    requires Distinct(objects[..])
    requires forall k :: 0 <= k < objects.Length ==> objects[k].containing == null
    modifies objects, objects[..]
    ensures multiset(objects[..]) == multiset(old(objects[..]))
    ensures TopoSorted(objects[..], objects.Length, contains)
    ensures forall k :: 0 <= k < objects.Length ==> Innermost(objects[..], objects[k], objects[k].containing, contains)
    ensures ContainersValid(objects[..], contains)
  {
    if objects.Length == 0 {
      return;
    }
    ghost var pool := objects[..];
    RecordsInnermostFirst(pool, LinksOf(pool), contains);
    InsertAll(objects, contains, pool);
    ghost var s := objects[..];
    RecordsInnermostAll(s, LinksOf(s), pool, contains);
    InnermostValid(s, contains);
  }

  /** The loop of the pass, from step 1 to the last. */
  method InsertAll(objects: array<RWGSurface>, contains: (RWGSurface, RWGSurface) -> bool, ghost pool: seq<RWGSurface>)
    requires StrictOrder(pool, contains) && Nested(pool, contains)
    requires pool == objects[..] && Sorting(pool, LinksOf(pool), 1, pool, contains)
    modifies objects, objects[..]
    ensures Sorting(objects[..], LinksOf(objects[..]), objects.Length, pool, contains)
  {
    var no := 1;
    while no < objects.Length
      invariant no <= objects.Length
      invariant Sorting(objects[..], LinksOf(objects[..]), no, pool, contains)
    {
      InsertNext(objects, no, contains, pool);
      no := no + 1;
    }
  }
}
