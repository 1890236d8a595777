/**
 * The `_pids` and `_table_ids` class attributes of ariblib/sections.py, as
 * Python's class-attribute lookup resolves them along each class's bases,
 * and the dispatch tables they give (module Dispatch). `Section` itself
 * accepts every table id but names no PID; `ProgramMapSection` names no PID
 * either until the reader assigns the PAT's `pmt_pids` to it.
 */
module SectionClasses {
  import opened Wrappers
  import opened Dispatch

  /** What one class body assigns: `None` where it assigns nothing of that name. */
  datatype Declaration = Declaration(pids: Option<seq<nat>>, tableIds: Option<seq<nat>>)

  /** `range(lo, hi)`. */
  function Range(lo: nat, hi: nat): (r: seq<nat>)
    ensures |r| == if lo <= hi then hi - lo else 0
    ensures forall x :: x in r <==> lo <= x < hi
    decreases hi - lo
  {
    if lo < hi then [lo] + Range(lo + 1, hi) else []
  }

  /** Class-attribute lookup: the first class along the bases, most derived first, that assigns the name. */
  function Lookup(mro: seq<Option<seq<nat>>>): Option<seq<nat>>
  {
    if mro == [] then None else if mro[0].Some? then mro[0] else Lookup(mro[1..])
  }

  /** The value found is the one of the nearest class that assigns the name; it is missing when none does. */
  lemma {:induction false} LookupNearest(mro: seq<Option<seq<nat>>>)
    ensures Lookup(mro).None? <==> forall i :: 0 <= i < |mro| ==> mro[i].None?
    ensures Lookup(mro).Some? ==> exists i :: 0 <= i < |mro| && mro[i] == Lookup(mro) &&
                                             forall j :: 0 <= j < i ==> mro[j].None?
  {
    if mro != [] && mro[0].None? {
      LookupNearest(mro[1..]);
      if Lookup(mro).Some? {
        var i :| 0 <= i < |mro[1..]| && mro[1..][i] == Lookup(mro) && forall j :: 0 <= j < i ==> mro[1..][j].None?;
        assert mro[i + 1] == Lookup(mro);
        forall j | 0 <= j < i + 1
          ensures mro[j].None?
        {
          if j > 0 {
            assert mro[j] == mro[1..][j - 1];
          }
        }
      } else {
        forall i | 0 <= i < |mro|
          ensures mro[i].None?
        {
          if i > 0 {
            assert mro[i] == mro[1..][i - 1];
          }
        }
      }
    }
  }

  function PidsAlong(mro: seq<Declaration>): seq<Option<seq<nat>>>
  {
    seq(|mro|, i requires 0 <= i < |mro| => mro[i].pids)
  }

  function TableIdsAlong(mro: seq<Declaration>): seq<Option<seq<nat>>>
  {
    seq(|mro|, i requires 0 <= i < |mro| => mro[i].tableIds)
  }

  /**
   * The class the reader is given: both attributes looked up along the
   * bases; `None` where reading `Section._pids` would raise `AttributeError`.
   */
  function Resolve(mro: seq<Declaration>): Option<SectionClass>
  {
    var pids := Lookup(PidsAlong(mro));
    var tids := Lookup(TableIdsAlong(mro));
    if pids.Some? && tids.Some? then Some(SectionClass(pids.value, tids.value, PsiSection)) else None
  }

  /** `Section`: every table id, no PID. */
  function SectionDecl(): Declaration
  {
    Declaration(None, Some(Range(0, 256)))
  }

  function PatDecl(): Declaration
  {
    Declaration(Some([0x00]), Some([0x00]))
  }

  /** `ProgramMapSection` declares its table id only. */
  function PmtDecl(): Declaration
  {
    Declaration(None, Some([0x02]))
  }

  function NitDecl(): Declaration
  {
    Declaration(Some([0x10]), Some([0x40, 0x41]))
  }

  function SdtDecl(): Declaration
  {
    Declaration(Some([0x11]), Some([0x42, 0x46]))
  }

  /** `ActualStreamServiceDescriptionSection` narrows the SDT to table id 0x42. */
  function ActualSdtDecl(): Declaration
  {
    Declaration(None, Some([0x42]))
  }

  /**
   * `OtherStreamServiceDescriptionSection` as written: its body assigns
   * `_tale_ids`, a name the reader never reads, so it assigns neither attribute.
   */
  function OtherSdtDeclAsWritten(): Declaration
  {
    Declaration(None, None)
  }

  /** `OtherStreamServiceDescriptionSection` as evidently intended: table id 0x46 only. */
  function OtherSdtDecl(): Declaration
  {
    Declaration(None, Some([0x46]))
  }

  function BatDecl(): Declaration
  {
    Declaration(Some([0x11]), Some([0x4A]))
  }

  /** The PAT, NIT and SDT resolve to the PIDs and table ids their bodies assign. */
  lemma ResolvedClasses()
    ensures Resolve([PatDecl(), SectionDecl()]) == Some(SectionClass([0x00], [0x00], PsiSection))
    ensures Resolve([NitDecl(), SectionDecl()]) == Some(SectionClass([0x10], [0x40, 0x41], PsiSection))
    ensures Resolve([SdtDecl(), SectionDecl()]) == Some(SectionClass([0x11], [0x42, 0x46], PsiSection))
    ensures Resolve([BatDecl(), SectionDecl()]) == Some(SectionClass([0x11], [0x4A], PsiSection))
  {
    assert PidsAlong([PatDecl(), SectionDecl()]) == [Some([0x00]), None];
    assert PidsAlong([NitDecl(), SectionDecl()]) == [Some([0x10]), None];
    assert PidsAlong([SdtDecl(), SectionDecl()]) == [Some([0x11]), None];
    assert PidsAlong([BatDecl(), SectionDecl()]) == [Some([0x11]), None];
  }

  /** Until the reader assigns its PIDs, the PMT class has no `_pids`; after it, the PMT dispatches on exactly those. */
  lemma PmtNeedsPids(pids: seq<nat>)
    ensures Resolve([PmtDecl(), SectionDecl()]) == None
    ensures Resolve([Declaration(Some(pids), None), PmtDecl(), SectionDecl()]) == Some(SectionClass(pids, [0x02], PsiSection))
  {
    assert PidsAlong([PmtDecl(), SectionDecl()]) == [None, None];
    var mro := [Declaration(Some(pids), None), PmtDecl(), SectionDecl()];
    assert PidsAlong(mro)[0] == Some(pids);
    assert TableIdsAlong(mro)[0] == None && TableIdsAlong(mro)[1] == Some([0x02]);
    assert Lookup(TableIdsAlong(mro)) == Lookup(TableIdsAlong(mro)[1..]);
  }

  /**
   * The SDT and the BAT share PID 0x11 but not a table id: the reader sends
   * each table id on 0x11 to its own class.
   */
  lemma SdtBatShareThePid()
    ensures var cs := [SectionClass([0x11], [0x42, 0x46], PsiSection), SectionClass([0x11], [0x4A], PsiSection)];
      TableIdsOf(Build(cs), 0x11) == {0x42, 0x46, 0x4A} &&
      (0x11, 0x42) in Build(cs).targetIds && (0x11, 0x46) in Build(cs).targetIds && (0x11, 0x4A) in Build(cs).targetIds &&
      Build(cs).targetIds[(0x11, 0x42)] == 0 && Build(cs).targetIds[(0x11, 0x46)] == 0 &&
      Build(cs).targetIds[(0x11, 0x4A)] == 1
  {
    var cs := [SectionClass([0x11], [0x42, 0x46], PsiSection), SectionClass([0x11], [0x4A], PsiSection)];
    forall tid: nat
      ensures tid in TableIdsOf(Build(cs), 0x11) <==> tid in {0x42, 0x46, 0x4A}
    {
      BuildTableMap(cs, 0x11, tid);
      BuildDomain(cs, (0x11, tid));
      if tid in {0x42, 0x46} {
        assert Declares(cs, 0, (0x11, tid));
      } else if tid == 0x4A {
        assert Declares(cs, 1, (0x11, tid));
      }
    }
    Registered(cs, 0, (0x11, 0x42));
    Registered(cs, 0, (0x11, 0x46));
    Registered(cs, 1, (0x11, 0x4A));
  }

  /** When class `i` declares the pair and no later one does, the pair goes to class `i`. */
  lemma Registered(cs: seq<SectionClass>, i: nat, key: (nat, nat))
    requires i < |cs| && Declares(cs, i, key)
    requires forall j :: i < j < |cs| ==> !Declares(cs, j, key)
    ensures key in Build(cs).targetIds && Build(cs).targetIds[key] == i
  {
    BuildDomain(cs, key);
    BuildLast(cs, key);
  }

  /** The two SDT subclasses resolve, through `ServiceDescriptionSection`, to PID 0x11. */
  lemma ResolvedSdts()
    ensures Resolve([ActualSdtDecl(), SdtDecl(), SectionDecl()]) == Some(SectionClass([0x11], [0x42], PsiSection))
    ensures Resolve([OtherSdtDeclAsWritten(), SdtDecl(), SectionDecl()]) == Some(SectionClass([0x11], [0x42, 0x46], PsiSection))
    ensures Resolve([OtherSdtDecl(), SdtDecl(), SectionDecl()]) == Some(SectionClass([0x11], [0x46], PsiSection))
  {
    assert PidsAlong([ActualSdtDecl(), SdtDecl(), SectionDecl()])[..2] == [None, Some([0x11])];
    assert PidsAlong([OtherSdtDeclAsWritten(), SdtDecl(), SectionDecl()])[..2] == [None, Some([0x11])];
    assert TableIdsAlong([OtherSdtDeclAsWritten(), SdtDecl(), SectionDecl()])[..2] == [None, Some([0x42, 0x46])];
    assert PidsAlong([OtherSdtDecl(), SdtDecl(), SectionDecl()])[..2] == [None, Some([0x11])];
  }

  /**
   * As written, asking for the actual-stream and then the other-stream SDT
   * sends the actual stream's table id 0x42 to the other-stream class.
   */
  lemma OtherSdtAsWrittenTakesActual()
    ensures var cs := [Resolve([ActualSdtDecl(), SdtDecl(), SectionDecl()]).value,
                       Resolve([OtherSdtDeclAsWritten(), SdtDecl(), SectionDecl()]).value];
      (0x11, 0x42) in Build(cs).targetIds && Build(cs).targetIds[(0x11, 0x42)] == 1
  {
    ResolvedSdts();
    var cs := [SectionClass([0x11], [0x42], PsiSection), SectionClass([0x11], [0x42, 0x46], PsiSection)];
    Registered(cs, 1, (0x11, 0x42));
  }

  /** With `_table_ids = [0x46]`, each SDT subclass receives exactly its own table id, in either order. */
  lemma OtherSdtKeepsToItsOwn()
    ensures var actual := Resolve([ActualSdtDecl(), SdtDecl(), SectionDecl()]).value;
      var other := Resolve([OtherSdtDecl(), SdtDecl(), SectionDecl()]).value;
      (0x11, 0x42) in Build([actual, other]).targetIds && (0x11, 0x46) in Build([actual, other]).targetIds &&
      (0x11, 0x42) in Build([other, actual]).targetIds && (0x11, 0x46) in Build([other, actual]).targetIds &&
      Build([actual, other]).targetIds[(0x11, 0x42)] == 0 && Build([actual, other]).targetIds[(0x11, 0x46)] == 1 &&
      Build([other, actual]).targetIds[(0x11, 0x42)] == 1 && Build([other, actual]).targetIds[(0x11, 0x46)] == 0
  {
    ResolvedSdts();
    var actual := SectionClass([0x11], [0x42], PsiSection);
    var other := SectionClass([0x11], [0x46], PsiSection);
    Registered([actual, other], 0, (0x11, 0x42));
    Registered([actual, other], 1, (0x11, 0x46));
    Registered([other, actual], 1, (0x11, 0x42));
    Registered([other, actual], 0, (0x11, 0x46));
  }
}
