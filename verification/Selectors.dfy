/** The console's view of a run, rebuilt from the event log alone (ui/selectors.ts). */
module Selectors {
  import opened Sequences
  import opened StepIds
  import opened Orchestrator

  /** An envelope on the wire: the step id is text and the run is named by its trace. */
  datatype Wire = Wire(stepId: string, status: Status, degraded: bool, payload: Payload, trace: string)

  function WireOf(trace: string): Envelope -> Wire {
    (e: Envelope) => Wire(Text(e.id), e.status, e.degraded, e.payload, trace)
  }

  /** `scoped`: an empty trace selects every envelope. */
  function Scoped(list: seq<Wire>, trace: string): seq<Wire> {
    Filter(list, (w: Wire) => trace == "" || w.trace == trace)
  }

  datatype ViewVerdict = Pass | Fail | RolledBack | Unverified

  function ExitCodeOf(w: Wire): Option<int> {
    if w.payload.VerifyPayload? then Some(w.payload.exitCode) else None
  }

  predicate RolledBackOf(w: Wire) { w.payload.VerifyPayload? && w.payload.rolledBack }

  function VerdictOf(w: Wire): ViewVerdict {
    if w.degraded then Unverified
    else if ExitCodeOf(w) == None || ExitCodeOf(w) == Some(-1) then Unverified
    else if RolledBackOf(w) then RolledBack
    else if ExitCodeOf(w) == Some(0) then Pass
    else Fail
  }

  datatype Position = Position(index: nat, attempt: nat)

  /** Which attempt of which plan position a finished verification reports, if it is one. */
  function PositionOf(w: Wire): Option<Position> {
    if w.status == Started then None
    else
      var second := ParseSuffixed(w.stepId, REVERIFY);
      if second.Some? then Some(Position(second.value, 2))
      else
        var first := ParseSuffixed(w.stepId, VERIFY);
        if first.Some? then Some(Position(first.value, 1)) else None
  }

  datatype Hit = Hit(attempt: nat, wire: Wire)

  /** One turn of the selector's loop: only a strictly later attempt replaces the best hit. */
  function Better(best: Option<Hit>, w: Wire, index: nat): Option<Hit> {
    match PositionOf(w)
    case None => best
    case Some(p) =>
      if p.index == index && (best.None? || p.attempt > best.value.attempt) then Some(Hit(p.attempt, w)) else best
  }

  function BestHit(list: seq<Wire>, index: nat): Option<Hit> {
    if list == [] then None else Better(BestHit(list[..|list| - 1], index), list[|list| - 1], index)
  }

  function HitVerdict(best: Option<Hit>): ViewVerdict {
    if best.None? then Unverified else VerdictOf(best.value.wire)
  }

  method VerdictForPosition(list: seq<Wire>, index: nat) returns (verdict: ViewVerdict)
    ensures verdict == HitVerdict(BestHit(list, index))
  {
    var best: Option<Hit> := None;
    for i := 0 to |list|
      invariant best == BestHit(list[..i], index)
    {
      assert list[..i + 1][..i] == list[..i];
      var w := list[i];
      var second := ParseSuffixed(w.stepId, REVERIFY);
      var first := if second.None? then ParseSuffixed(w.stepId, VERIFY) else None;
      if (second.None? && first.None?) || w.status == Started {
        continue;
      }
      if (if second.Some? then second.value else first.value) != index {
        continue;
      }
      var attempt := if second.None? then 1 else 2;
      if best.None? || attempt > best.value.attempt {
        best := Some(Hit(attempt, w));
      }
    }
    assert list[..|list|] == list;
    return if best.None? then Unverified else VerdictOf(best.value.wire);
  }

  // ------------------------------------------------------------------- the verification matrix

  datatype MatrixRow = MatrixRow(at: Position, stepId: string, exitCode: Option<int>, rolledBack: bool,
                                 verdict: ViewVerdict, degraded: bool)

  function RowOf(p: Position, w: Wire): MatrixRow {
    MatrixRow(p, w.stepId, ExitCodeOf(w), RolledBackOf(w), VerdictOf(w), w.degraded)
  }

  function Rows(list: seq<Wire>): seq<MatrixRow> {
    if list == [] then []
    else
      var w := list[|list| - 1];
      Rows(list[..|list| - 1]) + (if PositionOf(w).Some? then [RowOf(PositionOf(w).value, w)] else [])
  }

  function RowOrder(): (MatrixRow, MatrixRow) -> bool {
    (a: MatrixRow, b: MatrixRow) =>
      a.at.index < b.at.index || (a.at.index == b.at.index && a.at.attempt <= b.at.attempt)
  }

  function MatrixRows(list: seq<Wire>): seq<MatrixRow> { StableSort(Rows(list), RowOrder()) }

  method BuildMatrixRows(list: seq<Wire>) returns (rows: seq<MatrixRow>)
    ensures rows == MatrixRows(list)
  {
    var withIndex: seq<MatrixRow> := [];
    for i := 0 to |list|
      invariant withIndex == Rows(list[..i])
    {
      assert list[..i + 1][..i] == list[..i];
      var w := list[i];
      var second := ParseSuffixed(w.stepId, REVERIFY);
      var first := if second.None? then ParseSuffixed(w.stepId, VERIFY) else None;
      if (second.None? && first.None?) || w.status == Started {
        continue;
      }
      var at := Position(if second.Some? then second.value else first.value, if second.None? then 1 else 2);
      withIndex := withIndex + [MatrixRow(at, w.stepId, ExitCodeOf(w), RolledBackOf(w), VerdictOf(w), w.degraded)];
    }
    assert list[..|list|] == list;
    return StableSort(withIndex, RowOrder());
  }

  function LastRow(rows: seq<MatrixRow>, index: nat): Option<MatrixRow> {
    if rows == [] then None
    else if rows[|rows| - 1].at.index == index then Some(rows[|rows| - 1])
    else LastRow(rows[..|rows| - 1], index)
  }

  lemma {:induction false} LastRowExact(rows: seq<MatrixRow>, index: nat)
    ensures LastRow(rows, index).None? ==> forall r :: r in rows ==> r.at.index != index
    ensures LastRow(rows, index).Some? ==>
      exists i :: 0 <= i < |rows| && rows[i] == LastRow(rows, index).value && rows[i].at.index == index
        && forall j :: i < j < |rows| ==> rows[j].at.index != index
  {
    if rows != [] && rows[|rows| - 1].at.index != index {
      var init := rows[..|rows| - 1];
      LastRowExact(init, index);
      if LastRow(init, index).Some? {
        var i :| 0 <= i < |init| && init[i] == LastRow(init, index).value && init[i].at.index == index
          && forall j :: i < j < |init| ==> init[j].at.index != index;
        assert rows[i] == init[i];
        forall j | i < j < |rows|
          ensures rows[j].at.index != index
        {
          assert j < |init| ==> rows[j] == init[j];
        }
      }
    } else if rows != [] {
      assert rows[|rows| - 1].at.index == index;
    }
  }

  /** No attempt of any position reports twice. */
  ghost predicate OneReportEach(list: seq<Wire>) {
    forall i, j :: 0 <= i < j < |list| && PositionOf(list[i]).Some? ==> PositionOf(list[i]) != PositionOf(list[j])
  }

  /** The best hit is a report of the position, and no report of it is a later attempt. */
  lemma {:induction false} BestHitExact(list: seq<Wire>, index: nat)
    ensures BestHit(list, index).None? ==> forall w :: w in list && PositionOf(w).Some? ==> PositionOf(w).value.index != index
    ensures BestHit(list, index).Some? ==>
      var hit := BestHit(list, index).value;
      && hit.wire in list && PositionOf(hit.wire) == Some(Position(index, hit.attempt))
      && forall w :: w in list && PositionOf(w).Some? && PositionOf(w).value.index == index ==>
           PositionOf(w).value.attempt <= hit.attempt
  {
    if list != [] {
      BestHitExact(list[..|list| - 1], index);
      assert list == list[..|list| - 1] + [list[|list| - 1]];
    }
  }

  lemma {:induction false} RowsExact(list: seq<Wire>)
    ensures forall w :: w in list && PositionOf(w).Some? ==> RowOf(PositionOf(w).value, w) in Rows(list)
    ensures forall r :: r in Rows(list) ==>
      exists i :: 0 <= i < |list| && PositionOf(list[i]).Some? && r == RowOf(PositionOf(list[i]).value, list[i])
  {
    if list != [] {
      var init := list[..|list| - 1];
      RowsExact(init);
      assert list == init + [list[|list| - 1]];
      forall r | r in Rows(list)
        ensures exists i :: 0 <= i < |list| && PositionOf(list[i]).Some? && r == RowOf(PositionOf(list[i]).value, list[i])
      {
        if r in Rows(init) {
          var i :| 0 <= i < |init| && PositionOf(init[i]).Some? && r == RowOf(PositionOf(init[i]).value, init[i]);
          assert list[i] == init[i];
        } else {
          assert r == RowOf(PositionOf(list[|list| - 1]).value, list[|list| - 1]);
        }
      }
    }
  }

  /** The verdict shown for a plan position and the last matrix row of that position agree,
      whenever no attempt reports twice; `unverified` stands for no row. */
  lemma PlanAgreesWithMatrix(list: seq<Wire>, index: nat)
    requires OneReportEach(list)
    ensures var last := LastRow(MatrixRows(list), index);
      HitVerdict(BestHit(list, index)) == if last.None? then Unverified else last.value.verdict
  {
    var rows := MatrixRows(list);
    BestHitExact(list, index);
    RowsExact(list);
    SortMembers(Rows(list), RowOrder());
    SortSorted(Rows(list), RowOrder());
    LastRowExact(rows, index);
    var last := LastRow(rows, index);
    if BestHit(list, index).Some? {
      LastIsBest(list, index);
    } else {
      forall r | r in rows
        ensures r.at.index != index
      {
        assert r in Rows(list);
        var i :| 0 <= i < |list| && PositionOf(list[i]).Some? && r == RowOf(PositionOf(list[i]).value, list[i]);
        assert list[i] in list;
      }
    }
  }

  /** Among rows in matrix order the last row of an index has the greatest attempt. */
  lemma LastRowGreatest(rows: seq<MatrixRow>, index: nat, best: MatrixRow)
    requires Sorted(rows, RowOrder()) && best in rows && best.at.index == index
    requires forall r :: r in rows && r.at.index == index ==> r.at.attempt <= best.at.attempt
    ensures LastRow(rows, index).Some? && LastRow(rows, index).value in rows
    ensures LastRow(rows, index).value.at == best.at
  {
    LastRowExact(rows, index);
    hide LastRow;
    var last := LastRow(rows, index).value;
    var i :| 0 <= i < |rows| && rows[i] == last && rows[i].at.index == index
      && forall j :: i < j < |rows| ==> rows[j].at.index != index;
    var k :| 0 <= k < |rows| && rows[k] == best;
    assert k < i ==> RowOrder()(rows[k], rows[i]);
  }

  /** When no attempt reports twice, the position of a row determines the row. */
  lemma RowOfPosition(list: seq<Wire>, a: MatrixRow, b: MatrixRow)
    requires OneReportEach(list) && a in Rows(list) && b in Rows(list) && a.at == b.at
    ensures a == b
  {
    RowsExact(list);
    hide Rows;
    hide PositionOf;
    var i :| 0 <= i < |list| && PositionOf(list[i]).Some? && a == RowOf(PositionOf(list[i]).value, list[i]);
    var j :| 0 <= j < |list| && PositionOf(list[j]).Some? && b == RowOf(PositionOf(list[j]).value, list[j]);
    assert i == j;
  }

  lemma LastIsBest(list: seq<Wire>, index: nat)
    requires OneReportEach(list) && BestHit(list, index).Some?
    ensures var hit := BestHit(list, index).value;
      LastRow(MatrixRows(list), index) == Some(RowOf(Position(index, hit.attempt), hit.wire))
  {
    var rows := MatrixRows(list);
    var hit := BestHit(list, index).value;
    var best := RowOf(Position(index, hit.attempt), hit.wire);
    BestHitExact(list, index);
    RowsExact(list);
    SortMembers(Rows(list), RowOrder());
    SortSorted(Rows(list), RowOrder());
    hide Rows;
    hide BestHit;
    hide PositionOf;
    hide LastRow;
    hide StableSort;
    hide Sorted;
    hide OneReportEach;
    assert best in rows;
    forall r | r in rows && r.at.index == index
      ensures r.at.attempt <= hit.attempt
    {
      var j :| 0 <= j < |list| && PositionOf(list[j]).Some? && r == RowOf(PositionOf(list[j]).value, list[j]);
    }
    LastRowGreatest(rows, index, best);
    RowOfPosition(list, LastRow(rows, index).value, best);
  }

  // ------------------------------------------------------------------- the planning view

  function LastPlanning(list: seq<Wire>): Option<Wire> {
    if list == [] then None
    else if list[|list| - 1].stepId == Text(Planning) && list[|list| - 1].status == Done then Some(list[|list| - 1])
    else LastPlanning(list[..|list| - 1])
  }

  datatype PlanStepView = PlanStepView(id: string, verdict: ViewVerdict)

  function StepViews(list: seq<Wire>, ids: seq<string>): (views: seq<PlanStepView>)
    ensures |views| == |ids|
    ensures forall i :: 0 <= i < |ids| ==> views[i] == PlanStepView(ids[i], HitVerdict(BestHit(list, i)))
  {
    seq(|ids|, i requires 0 <= i < |ids| => PlanStepView(ids[i], HitVerdict(BestHit(list, i))))
  }

  function SelectPlanning(all: seq<Wire>, trace: string): Option<seq<PlanStepView>> {
    var list := Scoped(all, trace);
    var found := LastPlanning(list);
    if found.None? then None
    else Some(StepViews(list, if found.value.payload.PlanPayload? then found.value.payload.stepIds else []))
  }

  // ------------------------------------------------------------------- the pull request panel

  function LastPr(list: seq<Wire>): Option<Wire> {
    if list == [] then None
    else if list[|list| - 1].stepId == Text(Pr) then Some(list[|list| - 1])
    else LastPr(list[..|list| - 1])
  }

  /** The diff the panel shows: the last PR envelope's, or nothing. */
  function SelectPrDiff(all: seq<Wire>, trace: string): Option<string> {
    var found := LastPr(Scoped(all, trace));
    if found.None? then None
    else Some(if found.value.payload.PrPayload? then found.value.payload.unifiedDiff else "")
  }

  lemma {:induction false} LastPlanningExact(list: seq<Wire>)
    ensures LastPlanning(list).Some? ==>
      LastPlanning(list).value in list && LastPlanning(list).value.stepId == Text(Planning) && LastPlanning(list).value.status == Done
    ensures LastPlanning(list).None? ==> forall w :: w in list ==> !(w.stepId == Text(Planning) && w.status == Done)
  {
    if list != [] {
      LastPlanningExact(list[..|list| - 1]);
    }
  }

  lemma {:induction false} LastPrExact(list: seq<Wire>)
    ensures LastPr(list).Some? ==> LastPr(list).value in list && LastPr(list).value.stepId == Text(Pr)
  {
    if list != [] {
      LastPrExact(list[..|list| - 1]);
    }
  }

  lemma FixedTexts(id: StepId)
    ensures Text(id) == Text(Planning) <==> id == Planning
    ensures Text(id) == Text(Pr) <==> id == Pr
  {
    FirstChars(id);
    FirstChars(Planning);
    FirstChars(Pr);
    assert Text(Planning)[1] == 'l' && Text(Pr)[1] == 'r';
  }
}
