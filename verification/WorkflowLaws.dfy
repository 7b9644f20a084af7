/** What each edit of a budget computes, told by the tables it finds and leaves; what a patch
    stores; amounts below half a cent; and the verbs without the accounting schema. */
module WorkflowLaws {
  import opened BudgetTypes
  import opened BudgetReads
  import opened BudgetWorkflow

  // ── the edits of a draft, told by the tables ───────────────────────────────

  /** Everything but the row `l` is as it was. */
  ghost predicate OnlyRow(db: Db, after: Db, l: LineId) {
    && after.budgets == db.budgets
    && l in after.lines
    && forall m | m != l :: (m in after.lines <==> m in db.lines) && (m in db.lines ==> after.lines[m] == db.lines[m])
  }

  /** The budget's live lines are now these, and every other budget keeps its own. */
  ghost predicate LiveLinesBecome(db: Db, after: Db, b: BudgetId, live: set<LineId>) {
    && LiveLinesOf(after, b) == live
    && forall c | c != b :: LiveLinesOf(after, c) == LiveLinesOf(db, c)
  }

  ghost predicate CanAddLine(db: Db, gl: Gl, b: BudgetId, id: LineId, line: NewBudgetLine) {
    && b in db.budgets
    && !db.budgets[b].deleted
    && db.budgets[b].status == Draft
    && MeetsMasters(gl, db.budgets[b].fiscalYear, db.budgets[b].dateFrom, db.budgets[b].dateTo, line)
    && KeyFree(db, line, b)
    && id !in db.lines
    && RowFits(gl, line)
  }

  lemma AddLineExactly(db: Db, gl: Gl, b: BudgetId, id: LineId, line: NewBudgetLine)
    ensures var r, after := AddLineEffect(db, gl, b, id, line).result, AddLineEffect(db, gl, b, id, line).db;
            && (r.Ok? <==> CanAddLine(db, gl, b, id, line))
            && (r == Err(NotFound) <==> b !in db.budgets || db.budgets[b].deleted)
            && (r == Err(NotDraft) <==> b in db.budgets && !db.budgets[b].deleted && db.budgets[b].status != Draft)
            && (r.Ok? ==>
                  && OnlyRow(db, after, id)
                  && after.lines[id] == r.value
                  && RowOf(gl, b, line, r.value)
                  && id !in LiveLinesOf(db, b)
                  && LiveLinesBecome(db, after, b, LiveLinesOf(db, b) + {id}))
  {
    StoresNearestCent(line.planned);
    RoundedFits(line.planned);
    if InDraft(db, b) {
      RefusalExactly(db, gl, db.budgets[b], b, line);
    }
  }

  ghost predicate CanUpdateLine(db: Db, b: BudgetId, l: LineId, planned: real, notes: Option<string>) {
    && planned > 0.0
    && b in db.budgets
    && !db.budgets[b].deleted
    && db.budgets[b].status == Draft
    && l in db.lines
    && !db.lines[l].deleted
    && db.lines[l].budget == b
    && 2020 <= db.lines[l].fiscalYear <= 2100
    && (db.lines[l].fiscalMonth.Some? ==> 1 <= db.lines[l].fiscalMonth.value <= 12)
    && AmountFits(planned)
    && (notes.Some? ==> |notes.value| <= 500)
  }

  lemma UpdateLineExactly(db: Db, b: BudgetId, l: LineId, planned: real, notes: Option<string>)
    ensures var r, after := UpdateLineEffect(db, b, l, planned, notes).result, UpdateLineEffect(db, b, l, planned, notes).db;
            && (r.Ok? <==> CanUpdateLine(db, b, l, planned, notes))
            && (r == Err(InvalidAmount) <==> planned <= 0.0)
            && (planned > 0.0 ==>
                  && (r == Err(NotFound) <==> b !in db.budgets || db.budgets[b].deleted)
                  && (r == Err(NotDraft) <==> b in db.budgets && !db.budgets[b].deleted && db.budgets[b].status != Draft)
                  && (r == Err(LineNotFound) <==>
                        && b in db.budgets && !db.budgets[b].deleted && db.budgets[b].status == Draft
                        && !(l in db.lines && !db.lines[l].deleted && db.lines[l].budget == b)))
            && (r.Ok? ==>
                  && OnlyRow(db, after, l)
                  && after.lines[l] == r.value == db.lines[l].(planned := r.value.planned, notes := notes)
                  && NearestCent(planned, r.value.planned)
                  && LiveLinesBecome(db, after, b, LiveLinesOf(db, b)))
  {
    StoresNearestCent(planned);
    RoundedFits(planned);
  }

  predicate CanDeleteLine(db: Db, b: BudgetId, l: LineId) {
    && b in db.budgets
    && !db.budgets[b].deleted
    && db.budgets[b].status == Draft
    && l in db.lines
    && !db.lines[l].deleted
    && db.lines[l].budget == b
  }

  lemma DeleteLineExactly(db: Db, b: BudgetId, l: LineId)
    ensures var r, after := DeleteLineEffect(db, b, l).result, DeleteLineEffect(db, b, l).db;
            && (r.Ok? <==> CanDeleteLine(db, b, l))
            && (r == Err(NotFound) <==> b !in db.budgets || db.budgets[b].deleted)
            && (r == Err(NotDraft) <==> b in db.budgets && !db.budgets[b].deleted && db.budgets[b].status != Draft)
            && (r == Err(LineNotFound) <==>
                  && b in db.budgets && !db.budgets[b].deleted && db.budgets[b].status == Draft
                  && !(l in db.lines && !db.lines[l].deleted && db.lines[l].budget == b))
            && (r.Ok? ==>
                  && OnlyRow(db, after, l)
                  && after.lines[l] == db.lines[l].(deleted := true)
                  && LiveLinesBecome(db, after, b, LiveLinesOf(db, b) - {l}))
  {
  }

  /** Everything but the header `b` is as it was. */
  ghost predicate OnlyHeader(db: Db, after: Db, b: BudgetId) {
    && after.lines == db.lines
    && b in after.budgets
    && forall c | c != b :: (c in after.budgets <==> c in db.budgets) && (c in db.budgets ==> after.budgets[c] == db.budgets[c])
  }

  /** When a patch is taken: enforcement while draft or confirmed, every other field and the empty patch in draft only,
      with dates in order and texts inside the CHECKs. */
  ghost predicate CanPatch(db: Db, b: BudgetId, patch: BudgetPatch) {
    && b in db.budgets
    && !db.budgets[b].deleted
    && var header := db.budgets[b];
       if patch.enforcement.Some? then
         || header.status == Draft
         || (header.status == Confirmed && AsksNoField(patch))
       else
         && header.status == Draft
         && DatesOrdered(header, patch)
         && PatchFits(header, patch)
  }

  /** Name, description and both dates are absent. */
  predicate AsksNoField(patch: BudgetPatch) {
    patch.name == None && patch.description == None && patch.dateFrom == None && patch.dateTo == None
  }

  predicate DatesOrdered(header: Budget, patch: BudgetPatch) {
    (if patch.dateFrom.Some? then patch.dateFrom.value else header.dateFrom)
    <= (if patch.dateTo.Some? then patch.dateTo.value else header.dateTo)
  }

  /** The header is inside the CHECKs with the patch's name and description where it gives them. */
  predicate PatchFits(header: Budget, patch: BudgetPatch) {
    HeaderFits(header.code,
               if patch.name.Some? then patch.name.value else header.name,
               if patch.description.Some? && patch.description.value.Some? then patch.description.value else header.description,
               header.fiscalYear)
  }

  /** The patch gets past the checks of status: it asks for no enforcement, and out of draft for nothing at all. */
  predicate ReachesHeaderUpdate(db: Db, b: BudgetId, patch: BudgetPatch) {
    && b in db.budgets
    && !db.budgets[b].deleted
    && patch.enforcement.None?
    && (db.budgets[b].status == Draft || AsksNoField(patch))
  }

  lemma PatchExactly(db: Db, b: BudgetId, patch: BudgetPatch)
    ensures var r, after := PatchEffect(db, b, patch).result, PatchEffect(db, b, patch).db;
            && (r.Ok? <==> CanPatch(db, b, patch))
            && (r == Err(NotFound) <==> b !in db.budgets || db.budgets[b].deleted)
            && (r == Err(NotDraft) <==>
                  && b in db.budgets && !db.budgets[b].deleted
                  && db.budgets[b].status != Draft
                  && !AsksNoField(patch))
            && (r == Err(EnforcementLocked) <==>
                  && b in db.budgets && !db.budgets[b].deleted
                  && db.budgets[b].status in {Closed, Cancelled}
                  && patch.enforcement.Some?
                  && AsksNoField(patch))
            && (r == Err(BadDateRange) <==> ReachesHeaderUpdate(db, b, patch) && !DatesOrdered(db.budgets[b], patch))
            && (r == Err(Internal) <==>
                  && ReachesHeaderUpdate(db, b, patch)
                  && DatesOrdered(db.budgets[b], patch)
                  && (db.budgets[b].status == Draft ==> !PatchFits(db.budgets[b], patch)))
            && (r.Ok? ==>
                  && OnlyHeader(db, after, b)
                  && after.budgets[b] == r.value
                  && PatchedFrom(db.budgets[b], patch, r.value))
  {
  }

  /** The header a patch leaves, field by field. */
  predicate PatchedFrom(was: Budget, patch: BudgetPatch, now: Budget) {
    && now == was.(name := now.name, description := now.description, dateFrom := now.dateFrom, dateTo := now.dateTo, enforcement := now.enforcement)
    && if patch.enforcement.Some? then now == was.(enforcement := patch.enforcement.value) else
         && now.enforcement == was.enforcement
         && now.name == (if patch.name.Some? then patch.name.value else was.name)
         && now.dateFrom == (if patch.dateFrom.Some? then patch.dateFrom.value else was.dateFrom)
         && now.dateTo == (if patch.dateTo.Some? then patch.dateTo.value else was.dateTo)
         && (if patch.description.Some? && patch.description.value.Some? then now.description == patch.description.value
             else now.description == was.description)
  }

  lemma TransitionExactly(db: Db, b: BudgetId, v: LifecycleVerb)
    ensures var r, after := TransitionEffect(db, b, v).result, TransitionEffect(db, b, v).db;
            && (r.Ok? <==> b in db.budgets && !db.budgets[b].deleted && db.budgets[b].status in AllowedFrom(v))
            && (r.Ok? ==>
                  && OnlyHeader(db, after, b)
                  && after.budgets[b] == r.value == db.budgets[b].(status := Target(v)))
            && (r.Err? ==> r.error == if b in db.budgets && !db.budgets[b].deleted then InvalidTransition(db.budgets[b].status) else NotFound)
  {
  }

  // ── which error answers ────────────────────────────────────────────────────

  /** On a live draft: the guards in order, each with its own error for the line's own account, cost center and period;
      then the CHECKs of the row; then its primary key. */
  lemma AddLineRefuses(db: Db, gl: Gl, b: BudgetId, id: LineId, line: NewBudgetLine, e: WorkflowError)
    requires b in db.budgets && !db.budgets[b].deleted && db.budgets[b].status == Draft
    ensures AddLineEffect(db, gl, b, id, line).result == Err(e) <==>
              if line.planned <= 0.0 then e == InvalidAmount
              else if !gl.wired then e == Internal
              else if !GoodAccount(gl, line.account) then e == AccountMissing(line.account)
              else if line.costCenter.Some? && !GoodCostCenter(gl, line.costCenter.value) then e == CostCenterInvalid(line.costCenter.value)
              else if !GoodPeriod(gl, line.period, db.budgets[b].fiscalYear, db.budgets[b].dateFrom, db.budgets[b].dateTo)
                then e == PeriodInvalid(line.period)
              else if !KeyFree(db, line, b) then e == CoverageConflict
              else if !RowFits(gl, line) then e == Internal
              else id in db.lines && e == CoverageConflict
  {
    RefusalNames(db, gl, db.budgets[b], b, line, e);
    RefusalExactly(db, gl, db.budgets[b], b, line);
    RoundedFits(line.planned);
  }

  /** An account deactivated, deleted or turned into a header names itself. */
  lemma BadAccountIsNamed(db: Db, gl: Gl, b: BudgetId, id: LineId, line: NewBudgetLine)
    requires b in db.budgets && !db.budgets[b].deleted && db.budgets[b].status == Draft
    requires gl.wired && line.planned > 0.0 && line.account in gl.accounts
    requires var a := gl.accounts[line.account]; !a.active || a.deleted || a.isHeader || !a.isDetail
    ensures AddLineEffect(db, gl, b, id, line).result == Err(AccountMissing(line.account))
  {
    AddLineRefuses(db, gl, b, id, line, AccountMissing(line.account));
  }

  /** Create asks dates, then the code, then the lines in order, then the CHECKs of the header, then its primary key. */
  lemma CreateRefuses(db: Db, gl: Gl, id: BudgetId, lineIds: seq<LineId>, input: NewBudget)
    requires |lineIds| == |input.lines|
    ensures var r := CreateEffect(db, gl, id, lineIds, input).result;
            var inUse := exists b | b in db.budgets :: !db.budgets[b].deleted && db.budgets[b].code == input.code && b != id;
            var refused := FirstRefusal(db, gl, DraftOf(input), id, input.lines);
            if input.dateFrom > input.dateTo then r == Err(BadDateRange)
            else if inUse then r == Err(CodeTaken)
            else if refused.Some? then r == Err(refused.value)
            else if !HeaderFits(input.code, input.name, input.description, input.fiscalYear) then r == Err(Internal)
            else if id in db.budgets then r == Err(CodeTaken)
            else !Insertable(gl, db, lineIds, input.lines) ==> r == Err(Internal) || r == Err(CoverageConflict)
  {
    var refused := FirstRefusal(db, gl, DraftOf(input), id, input.lines);
    var begun := db.(budgets := db.budgets[id := DraftOf(input)]);
    if refused.None? && BudgetRowOk(DraftOf(input)) {
      InsertsExactly(gl, begun, id, lineIds, input.lines);
      NoRefusal(db, gl, DraftOf(input), id, input.lines);
      InsertRefuses(gl, DraftOf(input), db, begun, id, lineIds, input.lines);
    }
  }

  lemma {:induction false} InsertRefuses(gl: Gl, header: Budget, db: Db, tx: Db, b: BudgetId, ids: seq<LineId>, lines: seq<NewBudgetLine>)
    requires |ids| == |lines|
    requires forall line | line in lines :: Refusal(db, gl, header, b, line).None?
    ensures var r := InsertLines(gl, tx, b, ids, lines); r.Ok? || r == Err(Internal) || r == Err(CoverageConflict)
    decreases |lines|
  {
    if lines != [] {
      assert Refusal(db, gl, header, b, lines[0]).None?;
      var first := InsertLine(gl, tx, b, ids[0], lines[0]);
      if first.Ok? {
        InsertRefuses(gl, header, db, first.value, b, ids[1..], lines[1..]);
      }
    }
  }

  /** Confirm asks for the budget, its status and a line, then answers the refusal of one of its live lines. */
  lemma ConfirmRefuses(db: Db, gl: Gl, b: BudgetId, effect: Effect<Budget>)
    requires IsConfirm(db, gl, b, effect)
    ensures effect.result == Err(NotFound) <==> b !in db.budgets || db.budgets[b].deleted
    ensures b in db.budgets && !db.budgets[b].deleted && db.budgets[b].status != Draft ==>
              effect.result == Err(InvalidTransition(db.budgets[b].status))
    ensures effect.result == Err(NoLines) <==>
              && b in db.budgets && !db.budgets[b].deleted && db.budgets[b].status == Draft
              && !exists l | l in db.lines :: !db.lines[l].deleted && db.lines[l].budget == b
    ensures effect.result.Err? && InDraft(db, b) && effect.result.error != NoLines ==>
              exists l | l in db.lines && !db.lines[l].deleted && db.lines[l].budget == b ::
                var row := db.lines[l];
                Refusal(db, gl, db.budgets[b], b, NewBudgetLine(row.account, row.costCenter, row.period, row.planned, row.notes))
                == Some(effect.result.error)
  {
    if InDraft(db, b) && LiveLinesOf(db, b) != {} && !Confirmable(db, gl, b) {
      var header, e := db.budgets[b], effect.result.error;
      var ids :| IsLineOrder(db, b, ids) && (forall l | l in ids :: l in db.lines)
                 && FirstRefusal(db, gl, header, b, Candidates(db, ids)) == Some(e);
      FirstRefusalIs(db, gl, header, b, Candidates(db, ids), e);
      var i :| 0 <= i < |ids| && Refusal(db, gl, header, b, Candidates(db, ids)[i]) == Some(e);
      assert ids[i] in ids && ids[i] in LiveLinesOf(db, b);
      RefusalNames(db, gl, header, b, Candidates(db, ids)[i], NoLines);
      RefusalNames(db, gl, header, b, Candidates(db, ids)[i], NotFound);
    }
    assert forall l :: l in LiveLinesOf(db, b) <==> l in db.lines && !db.lines[l].deleted && db.lines[l].budget == b;
  }

  /** The header a patch asks for, read literally. */
  function Requested(header: Budget, patch: BudgetPatch): Budget {
    header.(
      name := Or(patch.name, header.name),
      description := Or(patch.description, header.description),
      dateFrom := Or(patch.dateFrom, header.dateFrom),
      dateTo := Or(patch.dateTo, header.dateTo),
      enforcement := Or(patch.enforcement, header.enforcement))
  }

  /** A successful patch does not always store what it asks for. It does if and only if it does not combine an
      enforcement with a change of another field, and does not ask to clear a description that is there. */
  lemma PatchStoresRequestExactly(db: Db, b: BudgetId, patch: BudgetPatch)
    requires PatchEffect(db, b, patch).result.Ok?
    ensures var header, after := db.budgets[b], PatchEffect(db, b, patch).db;
            after.budgets[b] == Requested(header, patch) <==>
              && (patch.enforcement.Some? ==> Requested(header, patch.(enforcement := None)) == header)
              && (patch.description == Some(None) ==> header.description == None)
  {
  }

  function Asking(name: Option<string>, description: Option<Option<string>>, enforcement: Option<Enforcement>): BudgetPatch {
    BudgetPatch(name, description, None, None, enforcement)
  }

  function Alone(header: Budget): Db {
    Db(map[1 := header], map[])
  }

  const PLAIN := Budget("B", "B", Some("old"), 2026, 1, 31, Draft, Warn, false)

  /** A patch that asks for a new name and a new posture succeeds and stores the posture only. */
  lemma MixedPatchLosesName()
    ensures var patch := Asking(Some("N"), None, Some(Block));
            && PatchEffect(Alone(PLAIN), 1, patch).result == Ok(PLAIN.(enforcement := Block))
            && Requested(PLAIN, patch).name == "N" != PLAIN.name
  {
    assert "N"[0] != PLAIN.name[0];
  }

  /** A patch that asks to clear the description succeeds and keeps it. */
  lemma ClearedDescriptionStays()
    ensures var patch := Asking(None, Some(None), None);
            && PatchEffect(Alone(PLAIN), 1, patch).result == Ok(PLAIN)
            && Requested(PLAIN, patch).description == None
  {
    assert 'B' in PLAIN.code && 'B' in PLAIN.name;
  }

  /** An empty patch of a confirmed budget is an internal error. */
  lemma EmptyPatchOfConfirmed()
    ensures PatchEffect(Alone(PLAIN.(status := Confirmed)), 1, Asking(None, None, None)).result == Err(Internal)
  {
  }

  // ── amounts below half a cent ──────────────────────────────────────────────

  /** The amount guard runs before rounding, so create, add_line and update_line can store a line worth zero.
      Each stored amount is positive exactly from half a cent up, and confirm refuses a budget with a zero line,
      whatever the masters are by then. */
  lemma SubCentCreateStopsConfirm(db: Db, gl: Gl, id: BudgetId, lineIds: seq<LineId>, input: NewBudget, masters: Gl)
    requires |lineIds| == |input.lines| && CreateEffect(db, gl, id, lineIds, input).result.Ok?
    ensures var after := CreateEffect(db, gl, id, lineIds, input).db;
            && (forall i | 0 <= i < |lineIds| :: LiveLine(after, lineIds[i]) && (after.lines[lineIds[i]].planned > 0.0 <==> input.lines[i].planned >= 0.005))
            && ((exists line | line in input.lines :: line.planned < 0.005) ==> !Confirmable(after, masters, id))
  {
    CreateAddsExactly(db, gl, id, lineIds, input);
    var after := CreateEffect(db, gl, id, lineIds, input).db;
    forall i | 0 <= i < |lineIds|
      ensures lineIds[i] in LiveLinesOf(after, id) && (after.lines[lineIds[i]].planned > 0.0 <==> input.lines[i].planned >= 0.005)
    {
      assert Stored(gl, after.lines, id, lineIds[i], input.lines[i]);
      assert input.lines[i] in input.lines && Refusal(db, gl, DraftOf(input), id, input.lines[i]).None?;
      StoredAmountZero(input.lines[i].planned);
    }
    if exists line | line in input.lines :: line.planned < 0.005 {
      var i :| 0 <= i < |lineIds| && input.lines[i].planned < 0.005;
      ZeroLineStopsConfirm(after, masters, id, lineIds[i]);
    }
  }

  lemma SubCentAddStopsConfirm(db: Db, gl: Gl, b: BudgetId, id: LineId, line: NewBudgetLine, masters: Gl)
    requires AddLineEffect(db, gl, b, id, line).result.Ok?
    ensures var after := AddLineEffect(db, gl, b, id, line).db;
            && (after.lines[id].planned > 0.0 <==> line.planned >= 0.005)
            && (line.planned < 0.005 ==> !Confirmable(after, masters, b))
  {
  }

  lemma SubCentUpdateStopsConfirm(db: Db, b: BudgetId, l: LineId, planned: real, notes: Option<string>, masters: Gl)
    requires UpdateLineEffect(db, b, l, planned, notes).result.Ok?
    ensures var after := UpdateLineEffect(db, b, l, planned, notes).db;
            && (after.lines[l].planned > 0.0 <==> planned >= 0.005)
            && (planned < 0.005 ==> !Confirmable(after, masters, b))
  {
  }

  /** Such a line can be stored: an amount of 0.004 passes every guard of add_line and becomes zero. */
  lemma ZeroLineIsStored() returns (db: Db, gl: Gl, line: NewBudgetLine)
    ensures line.planned > 0.0
    ensures var e := AddLineEffect(db, gl, 1, 5, line); e.result.Ok? && e.result.value.planned == 0.0
  {
    gl := Gl(true, map[1 := Account(true, false, true, false, DebitNormal)], map[], map[7 := Period(1, 31, 2026, Some(1), false)]);
    db := Alone(PLAIN);
    line := NewBudgetLine(1, None, 7, 0.004, None);
    StoredAmountZero(0.004);
  }

  lemma ZeroLineStopsConfirm(db: Db, gl: Gl, b: BudgetId, l: LineId)
    requires l in LiveLinesOf(db, b) && db.lines[l].planned <= 0.0
    ensures !Confirmable(db, gl, b)
  {
  }

  // ── without the accounting schema ──────────────────────────────────────────

  lemma {:induction false} RefusalIsNeverUnwired(db: Db, gl: Gl, header: Budget, own: BudgetId, lines: seq<NewBudgetLine>)
    ensures FirstRefusal(db, gl, header, own, lines) != Some(AccountingUnwired)
  {
    if lines != [] {
      RefusalIsNeverUnwired(db, gl, header, own, lines[1..]);
    }
  }

  lemma {:induction false} InsertIsNeverUnwired(gl: Gl, tx: Db, b: BudgetId, ids: seq<LineId>, lines: seq<NewBudgetLine>)
    requires |ids| == |lines|
    ensures InsertLines(gl, tx, b, ids, lines) != Err(AccountingUnwired)
    decreases |lines|
  {
    if lines != [] {
      var first := InsertLine(gl, tx, b, ids[0], lines[0]);
      if first.Ok? {
        InsertIsNeverUnwired(gl, first.value, b, ids[1..], lines[1..]);
      }
    }
  }

  /** No verb ever answers `accounting_unwired`, on any tables and masters. */
  lemma NeverUnwired(db: Db, gl: Gl, v: Verb, r: Result<Db, WorkflowError>)
    requires Drawn(v) && IsAnswer(db, gl, v, r)
    ensures r != Err(AccountingUnwired)
  {
    match v {
      case Create(id, lineIds, input) =>
        RefusalIsNeverUnwired(db, gl, DraftOf(input), id, input.lines);
        InsertIsNeverUnwired(gl, db.(budgets := db.budgets[id := DraftOf(input)]), id, lineIds, input.lines);
      case Confirm(b) =>
        var e :| IsConfirm(db, gl, b, e) && r == AnswerOf(e);
        if LiveBudget(db, b) && e.result.Err? && !Confirmable(db, gl, b) && InDraft(db, b) && LiveLinesOf(db, b) != {} {
          var ids :| IsLineOrder(db, b, ids) && (forall l | l in ids :: l in db.lines)
                     && FirstRefusal(db, gl, db.budgets[b], b, Candidates(db, ids)) == Some(e.result.error);
          RefusalIsNeverUnwired(db, gl, db.budgets[b], b, Candidates(db, ids));
        }
      case _ =>
    }
  }

  /** The verb gets as far as its first master read. */
  predicate ReadsMasters(db: Db, v: Verb) {
    match v
    case Create(id, _, input) =>
      && input.dateFrom <= input.dateTo
      && !CodeInUse(db, input.code, id)
      && input.lines != []
      && input.lines[0].planned > 0.0
    case AddLine(b, _, line) => InDraft(db, b) && line.planned > 0.0
    case Confirm(b) =>
      && InDraft(db, b)
      && LiveLinesOf(db, b) != {}
      && forall l | l in LiveLinesOf(db, b) :: db.lines[l].planned > 0.0
    case _ => false
  }

  /** Without the accounting schema every verb that reads it ends in the internal error. */
  lemma UnwiredIsInternal(db: Db, gl: Gl, v: Verb, r: Result<Db, WorkflowError>)
    requires Drawn(v) && IsAnswer(db, gl, v, r)
    requires !gl.wired && ReadsMasters(db, v)
    ensures r == Err(Internal)
  {
    if v.Confirm? {
      UnwiredConfirmIsInternal(db, gl, v.budget, r);
    }
  }

  lemma UnwiredConfirmIsInternal(db: Db, gl: Gl, b: BudgetId, r: Result<Db, WorkflowError>)
    requires IsAnswer(db, gl, Confirm(b), r)
    requires !gl.wired && ReadsMasters(db, Confirm(b))
    ensures r == Err(Internal)
  {
    var e :| IsConfirm(db, gl, b, e) && r == AnswerOf(e);
    var l :| l in LiveLinesOf(db, b);
    assert Refusal(db, gl, db.budgets[b], b, Candidate(db.lines[l])).Some?;
    var ids :| IsLineOrder(db, b, ids) && (forall l | l in ids :: l in db.lines)
               && FirstRefusal(db, gl, db.budgets[b], b, Candidates(db, ids)) == Some(e.result.error);
    assert l in ids;
    UnwiredRefusal(db, gl, b, ids);
  }

  lemma UnwiredRefusal(db: Db, gl: Gl, b: BudgetId, ids: seq<LineId>)
    requires !gl.wired && b in db.budgets && ids != []
    requires forall l | l in ids :: l in db.lines && db.lines[l].planned > 0.0
    ensures FirstRefusal(db, gl, db.budgets[b], b, Candidates(db, ids)) == Some(Internal)
  {
    assert ids[0] in ids;
    assert Candidates(db, ids)[0] == Candidate(db.lines[ids[0]]);
  }

  /** Without the accounting schema only verbs that bring no line under control can succeed: it fails closed. */
  lemma UnwiredFailsClosed(db: Db, gl: Gl, v: Verb)
    requires Drawn(v) && !gl.wired && Succeeds(db, gl, v)
    ensures !v.AddLine? && !v.Confirm? && (v.Create? ==> v.input.lines == [])
  {
    match v {
      case Create(id, lineIds, input) =>
        assert input.lines != [] ==> input.lines[0] in input.lines;
        CreateSucceedsExactly(db, gl, id, lineIds, input);
      case Confirm(b) => ConfirmSucceedsExactly(db, gl, b);
      case _ =>
    }
  }

  /** One such input: a line offered to an empty draft while the schema is missing. */
  lemma UnwiredAddLine() returns (db: Db, gl: Gl, v: Verb)
    ensures Drawn(v) && !gl.wired && ReadsMasters(db, v)
    ensures IsAnswer(db, gl, v, Err(Internal))
  {
    gl := Gl(false, map[], map[], map[]);
    db := Db(map[1 := Budget("B", "B", None, 2026, 1, 31, Draft, Block, false)], map[]);
    v := AddLine(1, 5, NewBudgetLine(1, None, 7, 100.0, None));
  }
}
