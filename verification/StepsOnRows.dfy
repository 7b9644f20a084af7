/** The steps of the step model, told on the rows they find: what each guard asks and each
    write leaves when other verbs have run since the verb's reads, and when it fails. */
module StepsOnRows {
  import opened BudgetTypes
  import opened BudgetReads
  import opened BudgetWorkflow
  import opened WorkflowLaws
  import opened Races

  /** One guard of one line, asked of the masters and tables of that moment and of the header the verb has read. */
  lemma GuardsAsk(db: Db, gl: Gl, header: Budget, own: BudgetId, line: NewBudgetLine)
    ensures Asked(db, gl, header, own, line, AskAccount)
         == if line.planned <= 0.0 then Some(InvalidAmount)
            else if !gl.wired then Some(Internal)
            else if !GoodAccount(gl, line.account) then Some(AccountMissing(line.account))
            else None
    ensures Asked(db, gl, header, own, line, AskCostCenter)
         == if line.costCenter.None? then None
            else if !gl.wired then Some(Internal)
            else if !GoodCostCenter(gl, line.costCenter.value) then Some(CostCenterInvalid(line.costCenter.value))
            else None
    ensures Asked(db, gl, header, own, line, AskPeriod)
         == if !gl.wired then Some(Internal)
            else if !GoodPeriod(gl, line.period, header.fiscalYear, header.dateFrom, header.dateTo) then Some(PeriodInvalid(line.period))
            else None
    ensures Asked(db, gl, header, own, line, AskKey) == if KeyFree(db, line, own) then None else Some(CoverageConflict)
  {
  }

  /** A confirm asks the guards of the rows it has read, against the header it has read, one after another; past the
      last it swaps the status of the row as it is now. */
  lemma ConfirmChecks(db: Db, b: BudgetId, header: Budget, rows: seq<BudgetLine>, next: nat, ask: Check, gl: Gl, order: seq<LineId>)
    ensures var o := Next(db, Confirming(b, header, rows, next, ask), gl, order);
            if next < |rows| then
              var row := rows[next];
              var line := NewBudgetLine(row.account, row.costCenter, row.period, row.planned, row.notes);
              match ask
              case AskAccount =>
                if line.planned > 0.0 && gl.wired && GoodAccount(gl, line.account)
                then o == Continue(Confirming(b, header, rows, next, AskCostCenter)) else o.Fail?
              case AskCostCenter =>
                if line.costCenter.None? || (gl.wired && GoodCostCenter(gl, line.costCenter.value))
                then o == Continue(Confirming(b, header, rows, next, AskPeriod)) else o.Fail?
              case AskPeriod =>
                if gl.wired && GoodPeriod(gl, line.period, header.fiscalYear, header.dateFrom, header.dateTo)
                then o == Continue(Confirming(b, header, rows, next, AskKey)) else o.Fail?
              case AskKey =>
                if KeyFree(db, line, b) then o == Continue(Confirming(b, header, rows, next + 1, AskAccount)) else o.Fail?
            else if b in db.budgets && !db.budgets[b].deleted && db.budgets[b].status == Draft then
              && o.Win?
              && OnlyHeader(db, o.after, b)
              && o.after.budgets[b] == db.budgets[b].(status := Confirmed)
              && o.change == Change(b, ToConfirmed, Draft)
            else o == Fail(Internal)
  {
    if next < |rows| {
      GuardsAsk(db, gl, header, b, Candidate(rows[next]));
    }
  }

  /** The same for an add_line, which then reads its period once more. */
  lemma AddChecks(db: Db, b: BudgetId, header: Budget, l: LineId, line: NewBudgetLine, ask: Check, gl: Gl, order: seq<LineId>)
    ensures var o := Next(db, Adding(b, header, l, line, ask), gl, order);
            match ask
            case AskAccount =>
              if line.planned > 0.0 && gl.wired && GoodAccount(gl, line.account)
              then o == Continue(Adding(b, header, l, line, AskCostCenter)) else o.Fail?
            case AskCostCenter =>
              if line.costCenter.None? || (gl.wired && GoodCostCenter(gl, line.costCenter.value))
              then o == Continue(Adding(b, header, l, line, AskPeriod)) else o.Fail?
            case AskPeriod =>
              if gl.wired && GoodPeriod(gl, line.period, header.fiscalYear, header.dateFrom, header.dateTo)
              then o == Continue(Adding(b, header, l, line, AskKey)) else o.Fail?
            case AskKey =>
              if KeyFree(db, line, b) then o == Continue(Minting(b, l, line, None)) else o == Fail(CoverageConflict)
  {
    GuardsAsk(db, gl, header, b, line);
  }

  /** The period an insert mints from is that of its own moment, not of the check. */
  lemma PeriodIsReadAgain(db: Db, b: BudgetId, l: LineId, line: NewBudgetLine, gl: Gl, order: seq<LineId>)
    ensures var o := Next(db, Minting(b, l, line, None), gl, order);
            if !gl.wired then o == Fail(Internal)
            else if line.period in gl.periods && !gl.periods[line.period].deleted
            then o == Continue(Minting(b, l, line, Some(gl.periods[line.period])))
            else o == Fail(PeriodInvalid(line.period))
  {
  }

  /** The UPDATE of a line asks for the line and its budget's id only, not for the budget's status. */
  lemma UpdateLands(db: Db, b: BudgetId, l: LineId, planned: real, notes: Option<string>, gl: Gl, order: seq<LineId>)
    ensures var o := Next(db, Updating(b, l, planned, notes), gl, order);
            var there := l in db.lines && !db.lines[l].deleted && db.lines[l].budget == b;
            && (o == Fail(LineNotFound) <==> !there)
            && (there ==> (o.Commit? <==>
                  && 2020 <= db.lines[l].fiscalYear <= 2100
                  && (db.lines[l].fiscalMonth.Some? ==> 1 <= db.lines[l].fiscalMonth.value <= 12)
                  && AmountFits(planned)
                  && (notes.Some? ==> |notes.value| <= 500)))
            && (there && !o.Commit? ==> o == Fail(Internal))
            && (o.Commit? ==>
                  && OnlyRow(db, o.db, l)
                  && NearestCent(planned, o.db.lines[l].planned)
                  && o.db.lines[l] == db.lines[l].(planned := o.db.lines[l].planned, notes := notes))
  {
    RoundedFits(planned);
    StoresNearestCent(planned);
  }

  lemma DeleteLands(db: Db, b: BudgetId, l: LineId, gl: Gl, order: seq<LineId>)
    ensures var o := Next(db, Deleting(b, l), gl, order);
            if l in db.lines && !db.lines[l].deleted && db.lines[l].budget == b
            then o.Commit? && OnlyRow(db, o.db, l) && o.db.lines[l] == db.lines[l].(deleted := true)
            else o == Fail(LineNotFound)
  {
  }

  /** An add_line past its guards inserts what its period said, whatever its budget has become. */
  lemma InsertLands(db: Db, b: BudgetId, l: LineId, line: NewBudgetLine, period: Period, gl: Gl, order: seq<LineId>)
    ensures var o := Next(db, Minting(b, l, line, Some(period)), gl, order);
            var fits := 2020 <= period.fiscalYear <= 2100 && (period.fiscalMonth.Some? ==> 1 <= period.fiscalMonth.value <= 12)
                        && AmountFits(line.planned) && (line.notes.Some? ==> |line.notes.value| <= 500);
            if !fits then o == Fail(Internal)
            else if l in db.lines then o == Fail(CoverageConflict)
            else
              && o.Commit?
              && OnlyRow(db, o.db, l)
              && NearestCent(line.planned, o.db.lines[l].planned)
              && o.db.lines[l] == BudgetLine(b, line.account, line.costCenter, line.period, period.fiscalYear, period.fiscalMonth,
                                             o.db.lines[l].planned, line.notes, false)
  {
    RoundedFits(line.planned);
    StoresNearestCent(line.planned);
  }

  /** The enforcement UPDATE asks for a live row only, whatever its status has become. */
  lemma PostureLands(db: Db, b: BudgetId, header: Budget, patch: BudgetPatch, gl: Gl, order: seq<LineId>)
    requires patch.enforcement.Some?
    ensures var o := Next(db, Patching(b, header, patch), gl, order);
            if b in db.budgets && !db.budgets[b].deleted
            then o.Commit? && OnlyHeader(db, o.db, b) && o.db.budgets[b] == db.budgets[b].(enforcement := patch.enforcement.value)
            else o == Fail(Internal)
  {
  }

  /** The header UPDATE asks for a live draft. A field the patch leaves out keeps what the row holds now, but a date it
      leaves out goes back to what the verb read. */
  lemma HeaderLands(db: Db, b: BudgetId, header: Budget, patch: BudgetPatch, gl: Gl, order: seq<LineId>)
    requires patch.enforcement.None?
    ensures var o := Next(db, Patching(b, header, patch), gl, order);
            if b in db.budgets && !db.budgets[b].deleted && db.budgets[b].status == Draft && PatchFits(db.budgets[b], patch) then
              && o.Commit?
              && OnlyHeader(db, o.db, b)
              && var was, now := db.budgets[b], o.db.budgets[b];
                 && now == was.(name := now.name, description := now.description, dateFrom := now.dateFrom, dateTo := now.dateTo)
                 && now.name == (if patch.name.Some? then patch.name.value else was.name)
                 && now.description == (if patch.description.Some? && patch.description.value.Some? then patch.description.value
                                        else was.description)
                 && now.dateFrom == (if patch.dateFrom.Some? then patch.dateFrom.value else header.dateFrom)
                 && now.dateTo == (if patch.dateTo.Some? then patch.dateTo.value else header.dateTo)
            else o == Fail(Internal)
  {
  }

  /** A create commits its header as asked and its own rows, unless a primary key was taken in the meantime. */
  lemma CreateLands(db: Db, id: BudgetId, lineIds: seq<LineId>, input: NewBudget, mine: map<LineId, BudgetLine>, minted: Option<Period>,
                    gl: Gl, order: seq<LineId>)
    requires |lineIds| == |input.lines|
    ensures var o := Next(db, Inserting(id, lineIds, input, mine, |input.lines|, minted), gl, order);
            if id in db.budgets then o == Fail(CodeTaken)
            else if exists l :: l in mine && l in db.lines then o == Fail(CoverageConflict)
            else
              && o.Commit?
              && id in o.db.budgets
              && o.db.budgets == db.budgets[id := o.db.budgets[id]]
              && HeaderAsked(input, o.db.budgets[id])
              && o.db.lines == db.lines + mine
  {
  }

  /** Two header patches can cross: the later write restores a date the earlier one had changed. */
  lemma CrossedPatchRestoresDate() returns (db: Db, header: Budget, patch: BudgetPatch)
    ensures LiveBudget(db, 1) && db.budgets[1].status == Draft && db.budgets[1].dateTo != header.dateTo
    ensures patch.dateTo.None?
    ensures forall gl, order :: var o := Next(db, Patching(1, header, patch), gl, order);
              o.Commit? && 1 in o.db.budgets && o.db.budgets[1].dateTo == header.dateTo
  {
    header := PLAIN;
    db := Alone(PLAIN.(dateTo := 20));
    patch := Asking(Some("B"), None, None);
    assert 'B' in "B" && 'B' in PLAIN.code && 'B' in PLAIN.name;
    forall gl, order ensures var o := Next(db, Patching(1, header, patch), gl, order);
              o.Commit? && 1 in o.db.budgets && o.db.budgets[1].dateTo == header.dateTo
    {
      HeaderLands(db, 1, header, patch, gl, order);
    }
  }
}
